/** The scene build: materials are imported (shader resolved, textures de-duplicated, flags derived) and sorted
    by hash, then every imported mesh is merged into global index and vertex buffers. */
module BuildScene {
  import opened BasicTypes
  import opened StringUtil
  import opened SceneBuildPipeline
  import opened QuickSort

  // =================================================================================================================
  // Shader names

  const ShaderNames: seq<string> := ["DisneyThin", "DisneySolid", "TransparentGGX"]
  const Shaders: seq<MaterialShader> := [DisneyThin, DisneySolid, TransparentGgx]

  /** The shader the first count table entries select: the last of them whose name equals name ignoring case,
      DisneySolid when none does. */
  function ShaderScan(name: string, count: nat): MaterialShader
    requires count <= |ShaderNames|
  {
    if count == 0 then DisneySolid
    else if EqualsIgnoreCase(ShaderNames[count - 1], name) then Shaders[count - 1]
    else ShaderScan(name, count - 1)
  }

  /** The shader a material's shader name selects, scanning the whole table. */
  function ShaderOf(name: string): MaterialShader
  {
    ShaderScan(name, |ShaderNames|)
  }

  /** The registered names have different lengths, so a name matches at most one of them. */
  lemma {:induction false} ShaderScanMatches(name: string, count: nat)
    requires count <= |ShaderNames|
    ensures forall k :: 0 <= k < count && EqualsIgnoreCase(ShaderNames[k], name) ==> ShaderScan(name, count) == Shaders[k]
    ensures (forall k :: 0 <= k < count ==> !EqualsIgnoreCase(ShaderNames[k], name)) ==> ShaderScan(name, count) == DisneySolid
  {
    if count > 0 {
      ShaderScanMatches(name, count - 1);
      if EqualsIgnoreCase(ShaderNames[count - 1], name) {
        forall k | 0 <= k < count - 1
          ensures !EqualsIgnoreCase(ShaderNames[k], name)
        {
          assert |ShaderNames[k]| != |ShaderNames[count - 1]|;
        }
      }
    }
  }

  /** A name that matches a registered shader name selects that shader; any other name selects DisneySolid. */
  lemma ShaderOfMatches(name: string)
    ensures forall k :: 0 <= k < |ShaderNames| && EqualsIgnoreCase(ShaderNames[k], name) ==> ShaderOf(name) == Shaders[k]
    ensures (forall k :: 0 <= k < |ShaderNames| ==> !EqualsIgnoreCase(ShaderNames[k], name)) ==> ShaderOf(name) == DisneySolid
  {
    ShaderScanMatches(name, |ShaderNames|);
  }

  /** DetermineShaderType: scans the shader name table, keeping the last case-insensitive match. */
  method DetermineShaderType(shaderName: string) returns (shader: MaterialShader)
    ensures shader == ShaderOf(shaderName)
  {
    shader := DisneySolid;
    for scan := 0 to |ShaderNames|
      invariant shader == ShaderScan(shaderName, scan)
    {
      if EqualsIgnoreCase(ShaderNames[scan], shaderName) {
        shader := Shaders[scan];
      }
    }
  }

  // =================================================================================================================
  // Texture de-duplication

  /** The first entry of the list equal to path ignoring case. */
  function FindIgnoreCase(list: seq<string>, path: string): (r: Option<nat>)
    ensures r.Some? ==> r.value < |list| && EqualsIgnoreCase(list[r.value], path)
    ensures r.Some? ==> forall j :: 0 <= j < r.value ==> !EqualsIgnoreCase(list[j], path)
    ensures r.None? ==> forall j :: 0 <= j < |list| ==> !EqualsIgnoreCase(list[j], path)
  {
    if list == [] then None
    else if EqualsIgnoreCase(list[0], path) then Some(0)
    else match FindIgnoreCase(list[1..], path)
      case Some(i) => Some(i + 1)
      case None => None
  }

  /** No two entries of the list are equal ignoring case. */
  ghost predicate NoCaseDuplicates(list: seq<string>)
  {
    forall i, j :: 0 <= i < j < |list| ==> !EqualsIgnoreCase(list[i], list[j])
  }

  /** The texture list and the index AddTexture leaves and returns: the first case-insensitive match, or the path
      appended at the end. */
  function TextureAdded(textures: seq<string>, path: string): (r: (seq<string>, nat))
    ensures r.1 < |r.0| && EqualsIgnoreCase(r.0[r.1], path)
    ensures r.0 == textures ==> forall j :: 0 <= j < r.1 ==> !EqualsIgnoreCase(textures[j], path)
    ensures r.0 != textures ==> r.0 == textures + [path] && r.1 == |textures|
    ensures r.0 != textures <==> forall j :: 0 <= j < |textures| ==> !EqualsIgnoreCase(textures[j], path)
  {
    match FindIgnoreCase(textures, path)
    case Some(i) => (textures, i)
    case None => (textures + [path], |textures|)
  }

  /** Adding a texture never introduces a case-insensitive duplicate. */
  lemma TextureAddedKeepsUnique(textures: seq<string>, path: string)
    requires NoCaseDuplicates(textures)
    ensures NoCaseDuplicates(TextureAdded(textures, path).0)
  {
    var t := TextureAdded(textures, path).0;
    if t != textures {
      forall i, j | 0 <= i < j < |t|
        ensures !EqualsIgnoreCase(t[i], t[j])
      {
        if j == |textures| {
          assert t[i] == textures[i];
        }
      }
    }
  }

  /** AddTexture: returns the index of the first texture equal to path ignoring case, appending path when there is
      none. */
  method AddTexture(built: BuiltScene, path: string) returns (index: nat)
    modifies built`textures
    ensures (built.textures, index) == TextureAdded(old(built.textures), path)
  {
    var scan := 0;
    while scan < |built.textures|
      invariant 0 <= scan <= |built.textures|
      invariant built.textures == old(built.textures)
      invariant forall j :: 0 <= j < scan ==> !EqualsIgnoreCase(built.textures[j], path)
    {
      if EqualsIgnoreCase(built.textures[scan], path) {
        return scan;
      }
      scan := scan + 1;
    }
    built.textures := built.textures + [path];
    index := |built.textures| - 1;
  }

  /** The texture index stored for an optional texture name: none for the empty name, else AddTexture's. The list
      only grows, by at most the name; a non-empty name gets the position of an equal texture, appended at the end
      when the list grows. */
  function ResolveTexture(textures: seq<string>, name: string): (r: (nat, seq<string>))
    ensures textures <= r.1 && |r.1| <= |textures| + 1
    ensures |name| == 0 ==> r.0 == InvalidIndex32 && r.1 == textures
    ensures |name| > 0 ==> r.0 < |r.1| && EqualsIgnoreCase(r.1[r.0], name)
    ensures |name| > 0 && r.1 != textures ==> r.1 == textures + [name] && r.0 == |textures|
  {
    if |name| == 0 then (InvalidIndex32, textures)
    else
      var (t, i) := TextureAdded(textures, name);
      (i, t)
  }

  /** The per-property texture indices, resolving the names in property order. */
  function ResolveAttributeTextures(textures: seq<string>, names: seq<string>): (r: (seq<nat>, seq<string>))
    ensures |r.0| == |names|
    decreases |names|
  {
    if names == [] then ([], textures)
    else
      var (indices, t) := ResolveAttributeTextures(textures, names[..|names| - 1]);
      var (i, t') := ResolveTexture(t, names[|names| - 1]);
      (indices + [i], t')
  }

  /** Texture indices never dangle: each is the sentinel or a position in the texture list. */
  ghost predicate IndexValid(index: nat, textures: seq<string>)
  {
    index == InvalidIndex32 || index < |textures|
  }

  /** Resolving one name only appends to the list, by at most the one name, keeps it free of case-insensitive
      duplicates, and yields the sentinel exactly for the empty name and otherwise the position of an equal texture. */
  lemma ResolveTextureFacts(textures: seq<string>, name: string)
    requires |textures| < InvalidIndex32
    ensures var r := ResolveTexture(textures, name);
            && textures <= r.1
            && |r.1| <= |textures| + 1
            && (NoCaseDuplicates(textures) ==> NoCaseDuplicates(r.1))
            && (r.0 == InvalidIndex32 <==> |name| == 0)
            && (|name| > 0 ==> r.0 < |r.1| && EqualsIgnoreCase(r.1[r.0], name))
  {
    if |name| > 0 && NoCaseDuplicates(textures) {
      TextureAddedKeepsUnique(textures, name);
    }
  }

  /** Resolving the property textures only appends to the list, by at most one entry per name, and keeps it free of
      case-insensitive duplicates. */
  lemma {:induction false} ResolveAttributeTexturesGrow(textures: seq<string>, names: seq<string>)
    requires |textures| + |names| <= InvalidIndex32
    ensures var t := ResolveAttributeTextures(textures, names).1;
            && textures <= t
            && |t| <= |textures| + |names|
            && (NoCaseDuplicates(textures) ==> NoCaseDuplicates(t))
    decreases |names|
  {
    if names != [] {
      var n := |names| - 1;
      ResolveAttributeTexturesGrow(textures, names[..n]);
      ResolveTextureFacts(ResolveAttributeTextures(textures, names[..n]).1, names[n]);
    }
  }

  /** Every property texture index is the sentinel exactly for an empty name, and otherwise the position of a
      texture equal to the name ignoring case. */
  lemma {:induction false} ResolveAttributeTexturesIndices(textures: seq<string>, names: seq<string>)
    requires |textures| + |names| <= InvalidIndex32
    ensures var r := ResolveAttributeTextures(textures, names);
            && (forall k :: 0 <= k < |names| ==> (r.0[k] == InvalidIndex32 <==> |names[k]| == 0))
            && (forall k :: 0 <= k < |names| && |names[k]| > 0 ==> r.0[k] < |r.1| && EqualsIgnoreCase(r.1[r.0[k]], names[k]))
    decreases |names|
  {
    if names != [] {
      var n := |names| - 1;
      var init := names[..n];
      var before := ResolveAttributeTextures(textures, init);
      var last := ResolveTexture(before.1, names[n]);
      var after := ResolveAttributeTextures(textures, names);
      assert after.0 == before.0 + [last.0] && after.1 == last.1;
      assert |last.1| <= InvalidIndex32 by {
        ResolveAttributeTexturesGrow(textures, init);
      }
      forall k | 0 <= k < |names|
        ensures after.0[k] == InvalidIndex32 <==> |names[k]| == 0
        ensures |names[k]| > 0 ==> after.0[k] < |after.1| && EqualsIgnoreCase(after.1[after.0[k]], names[k])
      {
        if k < n {
          ResolveAttributeTexturesIndices(textures, init);
          assert after.0[k] == before.0[k] && names[k] == init[k];
        }
      }
    }
  }

  // =================================================================================================================
  // Building one material

  /** A DisneySolid material is transparent when it transmits diffusely or specularly; TransparentGGX always is. */
  predicate TransparentBy(shader: MaterialShader, values: seq<real>)
    requires |values| == MaterialPropertyCount
  {
    shader == TransparentGgx || (shader == DisneySolid && (values[DiffuseTrans] > 0.0 || values[SpecTrans] > 0.0))
  }

  /** The flags ImportMaterials derives for a material. */
  function DerivedFlags(alphaTested: bool, invertDisplacement: bool, displacementIndex: nat, shader: MaterialShader,
                        values: seq<real>): set<MaterialFlag>
    requires |values| == MaterialPropertyCount
  {
    (if alphaTested then {AlphaTested} else {})
    + (if invertDisplacement then {InvertDisplacement} else {})
    + (if displacementIndex != InvalidIndex32 then {DisplacementEnabled} else {})
    + (if TransparentBy(shader, values) then {Transparent} else {})
  }

  /** The material built from imported data, and the texture list after its textures were added (base color, then
      normal, then the per-property textures in property order). */
  function ConvertMaterial(data: ImportedMaterialData, textures: seq<string>): (r: (Material, seq<string>))
    requires MaterialDataShaped(data)
    ensures |r.0.scalarAttributeTextureIndices| == MaterialPropertyCount
  {
    var shader := ShaderOf(data.shaderName);
    var (baseIndex, t1) := ResolveTexture(textures, data.baseColorTexture);
    var (normalIndex, t2) := ResolveTexture(t1, data.normalTexture);
    var (attributeIndices, t3) := ResolveAttributeTextures(t2, data.scalarAttributeTextures);
    var flags := DerivedFlags(data.alphaTested, data.invertDisplacement, attributeIndices[Displacement], shader,
                              data.scalarAttributes);
    (Material(shader, flags, data.baseColor, baseIndex, normalIndex, data.scalarAttributes, attributeIndices), t3)
  }

  /** The flags of a converted material: alpha testing and inverted displacement come from the imported data,
      displacement is enabled exactly when a displacement texture is bound, the material is transparent exactly when
      its shader is TransparentGGX or it is DisneySolid with diffuse or specular transmission, and Ptex is never set. */
  lemma ConvertMaterialFlags(data: ImportedMaterialData, textures: seq<string>)
    requires MaterialDataShaped(data)
    ensures var m := ConvertMaterial(data, textures).0;
            && m.shader == ShaderOf(data.shaderName)
            && m.baseColor == data.baseColor
            && m.scalarAttributeValues == data.scalarAttributes
            && (AlphaTested in m.flags <==> data.alphaTested)
            && (InvertDisplacement in m.flags <==> data.invertDisplacement)
            && (DisplacementEnabled in m.flags <==> m.scalarAttributeTextureIndices[Displacement] != InvalidIndex32)
            && (Transparent in m.flags <==> TransparentBy(m.shader, m.scalarAttributeValues))
            && UsesPtex !in m.flags
  {
  }

  /** Every texture index of the material is the sentinel or a position in the list. */
  ghost predicate MaterialIndicesValid(m: Material, textures: seq<string>)
  {
    && IndexValid(m.baseColorTextureIndex, textures)
    && IndexValid(m.normalTextureIndex, textures)
    && forall k :: 0 <= k < |m.scalarAttributeTextureIndices| ==> IndexValid(m.scalarAttributeTextureIndices[k], textures)
  }

  /** Converting a material only appends to the texture list, by at most one entry per texture slot, and keeps it
      free of case-insensitive duplicates. */
  lemma ConvertMaterialTextures(data: ImportedMaterialData, textures: seq<string>)
    requires MaterialDataShaped(data)
    requires |textures| + 2 + MaterialPropertyCount <= InvalidIndex32
    ensures var t := ConvertMaterial(data, textures).1;
            && textures <= t
            && |t| <= |textures| + 2 + MaterialPropertyCount
            && (NoCaseDuplicates(textures) ==> NoCaseDuplicates(t))
  {
    var t1 := ResolveTexture(textures, data.baseColorTexture).1;
    var t2 := ResolveTexture(t1, data.normalTexture).1;
    ResolveTextureFacts(textures, data.baseColorTexture);
    ResolveTextureFacts(t1, data.normalTexture);
    ResolveAttributeTexturesGrow(t2, data.scalarAttributeTextures);
  }

  /** A converted material has no dangling texture index, and enables displacement exactly when a displacement
      texture is named. */
  lemma ConvertMaterialIndices(data: ImportedMaterialData, textures: seq<string>)
    requires MaterialDataShaped(data)
    requires |textures| + 2 + MaterialPropertyCount <= InvalidIndex32
    ensures var (m, t) := ConvertMaterial(data, textures);
            && MaterialIndicesValid(m, t)
            && (DisplacementEnabled in m.flags <==> |data.scalarAttributeTextures[Displacement]| > 0)
  {
    var r1 := ResolveTexture(textures, data.baseColorTexture);
    var r2 := ResolveTexture(r1.1, data.normalTexture);
    var r3 := ResolveAttributeTextures(r2.1, data.scalarAttributeTextures);
    var m := ConvertMaterial(data, textures).0;
    assert MaterialIndicesValid(m, r3.1) by {
      ResolveAttributeTexturesGrow(r2.1, data.scalarAttributeTextures);
      ResolveAttributeTexturesIndices(r2.1, data.scalarAttributeTextures);
      assert IndexValid(r1.0, r3.1) && IndexValid(r2.0, r3.1);
    }
    assert DisplacementEnabled in m.flags <==> |data.scalarAttributeTextures[Displacement]| > 0 by {
      ResolveAttributeTexturesIndices(r2.1, data.scalarAttributeTextures);
    }
  }

  /** The per-property part of the ImportMaterials loop: copies each property value and adds each named property
      texture, in property order. */
  method BuildScalarAttributes(built: BuiltScene, data: ImportedMaterialData, material: Material) returns (result: Material)
    requires MaterialDataShaped(data)
    requires |material.scalarAttributeValues| == MaterialPropertyCount
    requires |material.scalarAttributeTextureIndices| == MaterialPropertyCount
    requires forall k :: 0 <= k < MaterialPropertyCount ==> material.scalarAttributeTextureIndices[k] == InvalidIndex32
    modifies built`textures
    ensures var (indices, t) := ResolveAttributeTextures(old(built.textures), data.scalarAttributeTextures);
            && result == material.(scalarAttributeValues := data.scalarAttributes, scalarAttributeTextureIndices := indices)
            && built.textures == t
  {
    var values := material.scalarAttributeValues;
    var indices := material.scalarAttributeTextureIndices;
    for scan := 0 to MaterialPropertyCount
      invariant |values| == |indices| == MaterialPropertyCount
      invariant values[..scan] == data.scalarAttributes[..scan]
      invariant (indices[..scan], built.textures) == ResolveAttributeTextures(old(built.textures), data.scalarAttributeTextures[..scan])
      invariant forall k :: scan <= k < MaterialPropertyCount ==> indices[k] == InvalidIndex32
    {
      ghost var done := indices[..scan];
      values := values[scan := data.scalarAttributes[scan]];
      var textureName := data.scalarAttributeTextures[scan];
      if |textureName| > 0 {
        var index := AddTexture(built, textureName);
        indices := indices[scan := index];
      }
      assert data.scalarAttributeTextures[..scan + 1][..scan] == data.scalarAttributeTextures[..scan];
      assert indices[..scan + 1] == done + [indices[scan]];
    }
    assert values == data.scalarAttributes by {
      assert values[..MaterialPropertyCount] == values;
      assert data.scalarAttributes[..MaterialPropertyCount] == data.scalarAttributes;
    }
    assert data.scalarAttributeTextures[..MaterialPropertyCount] == data.scalarAttributeTextures;
    assert indices[..MaterialPropertyCount] == indices;
    result := material.(scalarAttributeValues := values, scalarAttributeTextureIndices := indices);
  }

  /** The base color and normal texture part of the ImportMaterials loop: each named texture is added and its
      index stored. */
  method AddMaterialTextures(built: BuiltScene, data: ImportedMaterialData, material: Material) returns (result: Material)
    requires material.baseColorTextureIndex == InvalidIndex32 && material.normalTextureIndex == InvalidIndex32
    modifies built`textures
    ensures var (baseIndex, t1) := ResolveTexture(old(built.textures), data.baseColorTexture);
            var (normalIndex, t2) := ResolveTexture(t1, data.normalTexture);
            && result == material.(baseColorTextureIndex := baseIndex, normalTextureIndex := normalIndex)
            && built.textures == t2
  {
    result := material;
    if |data.baseColorTexture| > 0 {
      var index := AddTexture(built, data.baseColorTexture);
      result := result.(baseColorTextureIndex := index);
    }
    if |data.normalTexture| > 0 {
      var index := AddTexture(built, data.normalTexture);
      result := result.(normalTextureIndex := index);
    }
  }

  /** The flags ImportMaterials derives after the textures are bound: displacement and transparency. */
  method AddDerivedFlags(material: Material) returns (result: Material)
    requires |material.scalarAttributeValues| == |material.scalarAttributeTextureIndices| == MaterialPropertyCount
    ensures result == material.(flags := material.flags
      + (if material.scalarAttributeTextureIndices[Displacement] != InvalidIndex32 then {DisplacementEnabled} else {})
      + (if TransparentBy(material.shader, material.scalarAttributeValues) then {Transparent} else {}))
  {
    result := material;
    if result.scalarAttributeTextureIndices[Displacement] != InvalidIndex32 {
      result := result.(flags := result.flags + {DisplacementEnabled});
    }
    ghost var displacementFlags := result.flags;
    if result.shader == TransparentGgx {
      result := result.(flags := result.flags + {Transparent});
    }
    if result.shader == DisneySolid {
      if result.scalarAttributeValues[DiffuseTrans] > 0.0 || result.scalarAttributeValues[SpecTrans] > 0.0 {
        result := result.(flags := result.flags + {Transparent});
      }
    }
    assert result.flags == displacementFlags
      + (if TransparentBy(material.shader, material.scalarAttributeValues) then {Transparent} else {});
  }

  /** The body of the ImportMaterials loop for one imported material: flags, shader, base color, textures and
      derived flags. */
  method BuildMaterial(built: BuiltScene, data: ImportedMaterialData) returns (material: Material)
    requires MaterialDataShaped(data)
    modifies built`textures
    ensures (material, built.textures) == ConvertMaterial(data, old(built.textures))
  {
    material := DefaultMaterial();

    if data.alphaTested {
      material := material.(flags := material.flags + {AlphaTested});
    }
    if data.invertDisplacement {
      material := material.(flags := material.flags + {InvertDisplacement});
    }
    ghost var importedFlags := material.flags;
    assert importedFlags == (if data.alphaTested then {AlphaTested} else {})
                          + (if data.invertDisplacement then {InvertDisplacement} else {});

    var shader := DetermineShaderType(data.shaderName);
    material := material.(shader := shader, baseColor := data.baseColor);

    material := AddMaterialTextures(built, data, material);
    material := BuildScalarAttributes(built, data, material);
    material := AddDerivedFlags(material);
  }

  // =================================================================================================================
  // Importing all materials

  /** Every material the import stage delivered has one slot per property. */
  ghost predicate ImportsShaped(importResults: seq<Option<ImportedMaterialData>>)
  {
    forall k :: 0 <= k < |importResults| && importResults[k].Some? ==> MaterialDataShaped(importResults[k].value)
  }

  /** The (hash, material) pairs appended, in material order, and the texture list afterwards. A material whose
      import failed (None) is skipped. */
  function ImportAll(hashes: seq<Hash32>, importResults: seq<Option<ImportedMaterialData>>, textures: seq<string>)
    : (r: (seq<(Hash32, Material)>, seq<string>))
    requires |importResults| <= |hashes|
    requires ImportsShaped(importResults)
    decreases |importResults|
  {
    if importResults == [] then ([], textures)
    else
      var n := |importResults| - 1;
      var (pairs, t) := ImportAll(hashes, importResults[..n], textures);
      match importResults[n]
      case None => (pairs, t)
      case Some(data) =>
        var (m, t') := ConvertMaterial(data, t);
        (pairs + [(hashes[n], m)], t')
  }

  /** The successful imports, each with the hash of its material, in material order. */
  function Successes(hashes: seq<Hash32>, importResults: seq<Option<ImportedMaterialData>>)
    : seq<(Hash32, ImportedMaterialData)>
    requires |importResults| <= |hashes|
    decreases |importResults|
  {
    if importResults == [] then []
    else
      var n := |importResults| - 1;
      Successes(hashes, importResults[..n]) + (if importResults[n].Some? then [(hashes[n], importResults[n].value)] else [])
  }

  /** The hashes and materials stay parallel: the j-th appended pair carries the hash of the j-th material that
      imported successfully, next to the material built from that import (its shader, base color and values). */
  lemma {:induction false} ImportAllPairsMatchImports(hashes: seq<Hash32>, importResults: seq<Option<ImportedMaterialData>>,
                                                       textures: seq<string>)
    requires |importResults| <= |hashes|
    requires ImportsShaped(importResults)
    ensures var pairs := ImportAll(hashes, importResults, textures).0;
            var successes := Successes(hashes, importResults);
            && |pairs| == |successes|
            && forall j :: 0 <= j < |pairs| ==>
                 && pairs[j].0 == successes[j].0
                 && pairs[j].1.shader == ShaderOf(successes[j].1.shaderName)
                 && pairs[j].1.baseColor == successes[j].1.baseColor
                 && pairs[j].1.scalarAttributeValues == successes[j].1.scalarAttributes
    decreases |importResults|
  {
    if importResults != [] {
      var n := |importResults| - 1;
      var init := importResults[..n];
      ImportAllPairsMatchImports(hashes, init, textures);
      var (pairs, t) := ImportAll(hashes, init, textures);
      if importResults[n].Some? {
        ConvertMaterialFlags(importResults[n].value, t);
      }
    }
  }

  /** A material whose import failed contributes nothing: the pairs and the texture list are as if it were absent. */
  lemma FailedImportSkipped(hashes: seq<Hash32>, importResults: seq<Option<ImportedMaterialData>>, textures: seq<string>)
    requires |importResults| < |hashes|
    requires ImportsShaped(importResults)
    ensures ImportAll(hashes, importResults + [None], textures) == ImportAll(hashes, importResults, textures)
  {
    assert (importResults + [None])[..|importResults|] == importResults;
  }

  /** Importing never makes the texture list gain a case-insensitive duplicate, and leaves no material with a
      dangling texture index. */
  lemma {:induction false} ImportAllTexturesConsistent(hashes: seq<Hash32>, importResults: seq<Option<ImportedMaterialData>>,
                                                       textures: seq<string>)
    requires |importResults| <= |hashes|
    requires ImportsShaped(importResults)
    requires |textures| + |importResults| * (2 + MaterialPropertyCount) <= InvalidIndex32
    ensures var (pairs, t) := ImportAll(hashes, importResults, textures);
            && textures <= t
            && |t| <= |textures| + |importResults| * (2 + MaterialPropertyCount)
            && (NoCaseDuplicates(textures) ==> NoCaseDuplicates(t))
            && forall j :: 0 <= j < |pairs| ==> MaterialIndicesValid(pairs[j].1, t)
    decreases |importResults|
  {
    if importResults != [] {
      var n := |importResults| - 1;
      var init := importResults[..n];
      ImportAllTexturesConsistent(hashes, init, textures);
      var (pairs, t) := ImportAll(hashes, init, textures);
      assert |t| + 2 + MaterialPropertyCount <= InvalidIndex32;
      match importResults[n]
      case None =>
      case Some(data) =>
        ConvertMaterialTextures(data, t);
        ConvertMaterialIndices(data, t);
        var (m, t') := ConvertMaterial(data, t);
        forall j | 0 <= j < |pairs|
          ensures MaterialIndicesValid(pairs[j].1, t')
        {
          assert MaterialIndicesValid(pairs[j].1, t);
        }
    }
  }

  function Zip(hashes: seq<Hash32>, materials: seq<Material>): (r: seq<(Hash32, Material)>)
    requires |hashes| == |materials|
    ensures |r| == |hashes|
    ensures forall i :: 0 <= i < |r| ==> r[i] == (hashes[i], materials[i])
  {
    seq(|hashes|, i requires 0 <= i < |hashes| => (hashes[i], materials[i]))
  }

  function Keys(pairs: seq<(Hash32, Material)>): (r: seq<Hash32>)
    ensures |r| == |pairs|
    ensures forall i :: 0 <= i < |r| ==> r[i] == pairs[i].0
  {
    seq(|pairs|, i requires 0 <= i < |pairs| => pairs[i].0)
  }

  function Values(pairs: seq<(Hash32, Material)>): (r: seq<Material>)
    ensures |r| == |pairs|
    ensures forall i :: 0 <= i < |r| ==> r[i] == pairs[i].1
  {
    seq(|pairs|, i requires 0 <= i < |pairs| => pairs[i].1)
  }

  /** The material tables after importing: the texture list is the one ImportAll leaves, and the (hash, material)
      pairs are the earlier pairs and the newly imported ones, as a permutation sorted by hash. */
  ghost predicate MaterialsImported(textures: seq<string>, materialHashes: seq<Hash32>, materials: seq<Material>,
                                    hashes: seq<Hash32>, importResults: seq<Option<ImportedMaterialData>>,
                                    hashes0: seq<Hash32>, materials0: seq<Material>, textures0: seq<string>)
  {
    && |importResults| <= |hashes| && ImportsShaped(importResults) && |hashes0| == |materials0|
    && |materialHashes| == |materials|
    && textures == ImportAll(hashes, importResults, textures0).1
    && SortedByKey(Zip(materialHashes, materials))
    && multiset(Zip(materialHashes, materials))
       == multiset(Zip(hashes0, materials0) + ImportAll(hashes, importResults, textures0).0)
  }

  /** ImportMaterials: imports each material in turn (importResults[k] is what importing the k-th material file
      gave, None when it failed), skipping failures, then sorts the (hash, material) pairs by hash. */
  method ImportMaterials(imported: ImportedModel, importResults: seq<Option<ImportedMaterialData>>, built: BuiltScene)
    returns (err: Error)
    requires |importResults| == |imported.materials| <= |imported.materialHashes|
    requires ImportsShaped(importResults)
    requires |built.materialHashes| == |built.materials|
    modifies built`textures, built`materialHashes, built`materials
    ensures err == Success
    ensures MaterialsImported(built.textures, built.materialHashes, built.materials, imported.materialHashes, importResults,
                              old(built.materialHashes), old(built.materials), old(built.textures))
  {
    ghost var before := Zip(built.materialHashes, built.materials);
    for scan := 0 to |imported.materials|
      invariant |built.materialHashes| == |built.materials|
      invariant var (pairs, t) := ImportAll(imported.materialHashes, importResults[..scan], old(built.textures));
                Zip(built.materialHashes, built.materials) == before + pairs && built.textures == t
    {
      assert importResults[..scan + 1][..scan] == importResults[..scan];
      match importResults[scan]
      case None =>
        continue;
      case Some(importedMaterialData) =>
        built.materialHashes := built.materialHashes + [imported.materialHashes[scan]];
        var material := BuildMaterial(built, importedMaterialData);
        built.materials := built.materials + [material];
    }
    assert importResults[..|imported.materials|] == importResults;

    var sorted := SortByKey(Zip(built.materialHashes, built.materials));
    built.materialHashes := Keys(sorted);
    built.materials := Values(sorted);
    assert Zip(built.materialHashes, built.materials) == sorted;
    err := Success;
  }

  // =================================================================================================================
  // Merging the meshes

  /** AppendAndOffsetIndices' result: each index shifted by the mesh's vertex offset, in uint32 arithmetic. */
  function OffsetIndices(addend: seq<uint32>, offset: uint32): (r: seq<uint32>)
    ensures |r| == |addend|
    ensures forall i :: 0 <= i < |addend| ==> r[i] == AddU32(addend[i], offset)
  {
    seq(|addend|, i requires 0 <= i < |addend| => AddU32(addend[i], offset))
  }

  /** When nothing wraps, a mesh-local index below the mesh's vertex count becomes a global index inside the mesh's
      vertex range. */
  lemma OffsetIndicesInRange(addend: seq<uint32>, offset: uint32, vertexCount: nat)
    requires offset + vertexCount <= UINT32_LIMIT
    requires forall i :: 0 <= i < |addend| ==> addend[i] < vertexCount
    ensures forall i :: 0 <= i < |addend| ==> offset <= OffsetIndices(addend, offset)[i] < offset + vertexCount
  {
  }

  /** AppendAndOffsetIndices: appends the addend's indices, each shifted by offset. */
  method AppendAndOffsetIndices(addend: seq<uint32>, offset: uint32, built: BuiltScene)
    modifies built`indices
    ensures built.indices == old(built.indices) + OffsetIndices(addend, offset)
  {
    for scan := 0 to |addend|
      invariant built.indices == old(built.indices) + OffsetIndices(addend[..scan], offset)
    {
      assert addend[..scan + 1][..scan] == addend[..scan];
      built.indices := built.indices + [AddU32(addend[scan], offset)];
    }
    assert addend[..|addend|] == addend;
  }

  /** The tangent with its normal component removed (one Gram-Schmidt step). */
  function GramSchmidt(n: Float3, t: Float3): Float3
  {
    Sub3(t, Scale3(Dot(n, t), n))
  }

  /** For a unit normal, the Gram-Schmidt tangent is orthogonal to the normal. */
  lemma GramSchmidtOrthogonal(n: Float3, t: Float3)
    requires Dot(n, n) == 1.0
    ensures Dot(n, GramSchmidt(n, t)) == 0.0
  {
    var d := Dot(n, t);
    calc {
      Dot(n, GramSchmidt(n, t));
      n.x * (t.x - d * n.x) + n.y * (t.y - d * n.y) + n.z * (t.z - d * n.z);
      d - d * (n.x * n.x + n.y * n.y + n.z * n.z);
      d - d * Dot(n, n);
      0.0;
    }
  }

  /** The tangent frame stored for vertex i of a mesh: the supplied tangent and bitangent when both exist for the
      vertex, otherwise an orthogonal basis made from the normal (MakeOrthogonalCoordinateSystem, passed in as
      orthogonalBasis); the tangent is made orthogonal to the normal and w carries the handedness of the bitangent. */
  function VertexTangent(m: ImportedMesh, i: nat, orthogonalBasis: Float3 -> (Float3, Float3)): Float4
    requires i < |m.normals|
  {
    var n := m.normals[i];
    var (t, b) := if i < |m.tangents| && i < |m.bitangents| then (m.tangents[i], m.bitangents[i]) else orthogonalBasis(n);
    var t' := GramSchmidt(n, t);
    var handedness := if Dot(Cross(n, t'), b) < 0.0 then -1.0 else 1.0;
    Float4(t'.x, t'.y, t'.z, handedness)
  }

  /** The stored tangent's w is the bitangent's handedness, -1 or 1, and its xyz is orthogonal to a unit normal. */
  lemma VertexTangentFacts(m: ImportedMesh, i: nat, orthogonalBasis: Float3 -> (Float3, Float3))
    requires i < |m.normals|
    ensures var w := VertexTangent(m, i, orthogonalBasis).w; w == 1.0 || w == -1.0
    ensures var t := VertexTangent(m, i, orthogonalBasis);
            Dot(m.normals[i], m.normals[i]) == 1.0 ==> Dot(m.normals[i], Float3(t.x, t.y, t.z)) == 0.0
  {
    var n := m.normals[i];
    var (t, b) := if i < |m.tangents| && i < |m.bitangents| then (m.tangents[i], m.bitangents[i]) else orthogonalBasis(n);
    if Dot(n, n) == 1.0 {
      GramSchmidtOrthogonal(n, t);
    }
  }

  /** The per-mesh lengths the build stores in uint32 fields fit, and every vertex has a normal. */
  predicate MeshFits(m: ImportedMesh)
  {
    && |m.positions| < UINT32_LIMIT
    && |m.triindices| < UINT32_LIMIT
    && |m.quadindices| < UINT32_LIMIT
    && |m.normals| >= |m.positions|
  }

  predicate AllMeshesFit(ms: seq<ImportedMesh>)
  {
    forall k :: 0 <= k < |ms| ==> MeshFits(ms[k])
  }

  /** What the merged geometry holds: the mesh table and the global buffers. */
  datatype Geometry = Geometry(
    meshes: seq<MeshMetaData>,
    indices: seq<uint32>,
    faceIndexCounts: seq<uint32>,
    positions: seq<Float3>,
    uvs: seq<Float2>,
    normals: seq<Float3>,
    tangents: seq<Float4>)

  function Concat(g: Geometry, h: Geometry): Geometry
  {
    Geometry(g.meshes + h.meshes, g.indices + h.indices, g.faceIndexCounts + h.faceIndexCounts,
             g.positions + h.positions, g.uvs + h.uvs, g.normals + h.normals, g.tangents + h.tangents)
  }

  lemma ConcatAssociative(a: Geometry, b: Geometry, c: Geometry)
    ensures Concat(Concat(a, b), c) == Concat(a, Concat(b, c))
  {
    assert (a.meshes + b.meshes) + c.meshes == a.meshes + (b.meshes + c.meshes);
    assert (a.indices + b.indices) + c.indices == a.indices + (b.indices + c.indices);
    assert (a.faceIndexCounts + b.faceIndexCounts) + c.faceIndexCounts == a.faceIndexCounts + (b.faceIndexCounts + c.faceIndexCounts);
    assert (a.positions + b.positions) + c.positions == a.positions + (b.positions + c.positions);
    assert (a.uvs + b.uvs) + c.uvs == a.uvs + (b.uvs + c.uvs);
    assert (a.normals + b.normals) + c.normals == a.normals + (b.normals + c.normals);
    assert (a.tangents + b.tangents) + c.tangents == a.tangents + (b.tangents + c.tangents);
  }

  lemma AppendAssociative<T>(a: seq<T>, b: seq<T>, c: seq<T>)
    ensures a + b + c == a + (b + c)
  {
  }

  const EmptyGeometry: Geometry := Geometry([], [], [], [], [], [], [])

  /** count copies of a face's index count. */
  function Repeat(value: uint32, count: nat): (r: seq<uint32>)
    ensures |r| == count && forall i :: 0 <= i < count ==> r[i] == value
  {
    seq(count, _ => value)
  }

  /** The mesh table entries of one mesh: a triangle entry, then a quad entry, each only when it has indices. */
  function MeshEntries(m: ImportedMesh, indexOffset: uint32, vertexOffset: uint32): seq<MeshMetaData>
    requires MeshFits(m)
  {
    (if |m.triindices| > 0
     then [MeshMetaData(|m.triindices|, indexOffset, |m.positions|, vertexOffset, m.materialHash, 3)] else [])
    + (if |m.quadindices| > 0
       then [MeshMetaData(|m.quadindices|, AddU32(indexOffset, |m.triindices|), |m.positions|, vertexOffset,
                          m.materialHash, 4)] else [])
  }

  /** What one mesh appends to the built scene, given the running index and vertex offsets. */
  function MeshGeometry(m: ImportedMesh, indexOffset: uint32, vertexOffset: uint32,
                        orthogonalBasis: Float3 -> (Float3, Float3)): Geometry
    requires MeshFits(m)
  {
    Geometry(
      MeshEntries(m, indexOffset, vertexOffset),
      OffsetIndices(m.triindices, vertexOffset) + OffsetIndices(m.quadindices, vertexOffset),
      Repeat(3, |m.triindices| / 3) + Repeat(4, |m.quadindices| / 4),
      m.positions,
      m.uv0,
      m.normals[..|m.positions|],
      VertexTangents(m, |m.positions|, orthogonalBasis))
  }

  /** The tangent frames of the first count vertices of a mesh. */
  function VertexTangents(m: ImportedMesh, count: nat, orthogonalBasis: Float3 -> (Float3, Float3)): (r: seq<Float4>)
    requires count <= |m.positions| <= |m.normals|
    ensures |r| == count && forall i :: 0 <= i < count ==> r[i] == VertexTangent(m, i, orthogonalBasis)
  {
    if count == 0 then [] else VertexTangents(m, count - 1, orthogonalBasis) + [VertexTangent(m, count - 1, orthogonalBasis)]
  }

  /** The running vertex offset after the meshes, in uint32 arithmetic. */
  function VertexOffset(ms: seq<ImportedMesh>): uint32
    requires AllMeshesFit(ms)
  {
    if ms == [] then 0 else AddU32(VertexOffset(ms[..|ms| - 1]), |ms[|ms| - 1].positions|)
  }

  /** The running index offset after the meshes, in uint32 arithmetic. */
  function IndexOffset(ms: seq<ImportedMesh>): uint32
    requires AllMeshesFit(ms)
  {
    if ms == [] then 0
    else
      var m := ms[|ms| - 1];
      AddU32(AddU32(IndexOffset(ms[..|ms| - 1]), |m.triindices|), |m.quadindices|)
  }

  /** The vertex count over all meshes, unbounded. */
  function VertexTotal(ms: seq<ImportedMesh>): nat
  {
    if ms == [] then 0 else VertexTotal(ms[..|ms| - 1]) + |ms[|ms| - 1].positions|
  }

  /** The index count over all meshes, unbounded. */
  function IndexTotal(ms: seq<ImportedMesh>): nat
  {
    if ms == [] then 0 else IndexTotal(ms[..|ms| - 1]) + |ms[|ms| - 1].triindices| + |ms[|ms| - 1].quadindices|
  }

  /** The face count over all meshes, unbounded. */
  function FaceTotal(ms: seq<ImportedMesh>): nat
  {
    if ms == [] then 0 else FaceTotal(ms[..|ms| - 1]) + |ms[|ms| - 1].triindices| / 3 + |ms[|ms| - 1].quadindices| / 4
  }

  /** The uv count over all meshes, unbounded. */
  function UvTotal(ms: seq<ImportedMesh>): nat
  {
    if ms == [] then 0 else UvTotal(ms[..|ms| - 1]) + |ms[|ms| - 1].uv0|
  }

  /** The geometry BuildMeshes appends for the meshes, mesh by mesh. */
  function Merge(ms: seq<ImportedMesh>, orthogonalBasis: Float3 -> (Float3, Float3)): Geometry
    requires AllMeshesFit(ms)
  {
    if ms == [] then EmptyGeometry
    else
      var init := ms[..|ms| - 1];
      Concat(Merge(init, orthogonalBasis),
             MeshGeometry(ms[|ms| - 1], IndexOffset(init), VertexOffset(init), orthogonalBasis))
  }

  // -- Properties of the merged geometry

  /** The global buffers hold every mesh's indices, vertices, normals, tangents, uvs and faces. */
  lemma {:induction false} MergeSizes(ms: seq<ImportedMesh>, orthogonalBasis: Float3 -> (Float3, Float3))
    requires AllMeshesFit(ms)
    ensures var g := Merge(ms, orthogonalBasis);
            && |g.indices| == IndexTotal(ms)
            && |g.positions| == |g.normals| == |g.tangents| == VertexTotal(ms)
            && |g.uvs| == UvTotal(ms)
            && |g.faceIndexCounts| == FaceTotal(ms)
  {
    if ms != [] {
      MergeSizes(ms[..|ms| - 1], orthogonalBasis);
    }
  }

  /** The running uint32 offsets are the plain totals as long as the totals fit in 32 bits. */
  lemma {:induction false} OffsetsAreTotals(ms: seq<ImportedMesh>)
    requires AllMeshesFit(ms)
    ensures IndexTotal(ms) < UINT32_LIMIT ==> IndexOffset(ms) == IndexTotal(ms)
    ensures VertexTotal(ms) < UINT32_LIMIT ==> VertexOffset(ms) == VertexTotal(ms)
  {
    if ms != [] {
      var init := ms[..|ms| - 1];
      OffsetsAreTotals(init);
    }
  }

  /** The entries cover the index range [start, end) one after the other, without gap or overlap, and none is
      empty. */
  ghost predicate Tiles(entries: seq<MeshMetaData>, start: nat, end: nat)
  {
    && (|entries| == 0 ==> start == end)
    && (|entries| > 0 ==> entries[0].indexOffset == start
                          && entries[|entries| - 1].indexOffset + entries[|entries| - 1].indexCount == end)
    && (forall k :: 0 <= k < |entries| - 1 ==> entries[k].indexOffset + entries[k].indexCount == entries[k + 1].indexOffset)
    && (forall k :: 0 <= k < |entries| ==> entries[k].indexCount > 0)
  }

  lemma TilesConcat(a: seq<MeshMetaData>, b: seq<MeshMetaData>, start: nat, middle: nat, end: nat)
    requires Tiles(a, start, middle) && Tiles(b, middle, end)
    ensures Tiles(a + b, start, end)
  {
    var c := a + b;
    if |a| > 0 && |b| > 0 {
      assert c[|a| - 1] == a[|a| - 1] && c[|a|] == b[0];
      forall k | 0 <= k < |c| - 1
        ensures c[k].indexOffset + c[k].indexCount == c[k + 1].indexOffset
      {
        if k < |a| - 1 {
          assert c[k] == a[k] && c[k + 1] == a[k + 1];
        } else if k >= |a| {
          assert c[k] == b[k - |a|] && c[k + 1] == b[k - |a| + 1];
        }
      }
      forall k | 0 <= k < |c|
        ensures c[k].indexCount > 0
      {
        if k < |a| {
          assert c[k] == a[k];
        } else {
          assert c[k] == b[k - |a|];
        }
      }
    } else if |a| == 0 {
      assert c == b;
    } else {
      assert c == a;
    }
  }

  /** One mesh's entries cover its triangle indices and then its quad indices. */
  lemma MeshEntriesTile(m: ImportedMesh, indexOffset: uint32, vertexOffset: uint32)
    requires MeshFits(m)
    requires indexOffset + |m.triindices| + |m.quadindices| < UINT32_LIMIT
    ensures Tiles(MeshEntries(m, indexOffset, vertexOffset), indexOffset,
                  indexOffset + |m.triindices| + |m.quadindices|)
  {
    var io := indexOffset;
    var tri := if |m.triindices| > 0
               then [MeshMetaData(|m.triindices|, io, |m.positions|, vertexOffset, m.materialHash, 3)] else [];
    var quad := if |m.quadindices| > 0
                then [MeshMetaData(|m.quadindices|, AddU32(io, |m.triindices|), |m.positions|, vertexOffset,
                                   m.materialHash, 4)] else [];
    assert Tiles(tri, io, io + |m.triindices|);
    assert Tiles(quad, io + |m.triindices|, io + |m.triindices| + |m.quadindices|);
    TilesConcat(tri, quad, io, io + |m.triindices|, io + |m.triindices| + |m.quadindices|);
  }

  /** The mesh table alone, as Merge builds it. */
  function MergedEntries(ms: seq<ImportedMesh>): seq<MeshMetaData>
    requires AllMeshesFit(ms)
  {
    if ms == [] then []
    else
      var init := ms[..|ms| - 1];
      MergedEntries(init) + MeshEntries(ms[|ms| - 1], IndexOffset(init), VertexOffset(init))
  }

  lemma {:induction false} MergedEntriesOfMerge(ms: seq<ImportedMesh>, orthogonalBasis: Float3 -> (Float3, Float3))
    requires AllMeshesFit(ms)
    ensures Merge(ms, orthogonalBasis).meshes == MergedEntries(ms)
  {
    if ms != [] {
      MergedEntriesOfMerge(ms[..|ms| - 1], orthogonalBasis);
    }
  }

  lemma {:induction false} MergedEntriesTile(ms: seq<ImportedMesh>)
    requires AllMeshesFit(ms)
    requires IndexTotal(ms) < UINT32_LIMIT
    ensures Tiles(MergedEntries(ms), 0, IndexTotal(ms))
  {
    if ms != [] {
      var init := ms[..|ms| - 1];
      var m := ms[|ms| - 1];
      MergedEntriesTile(init);
      OffsetsAreTotals(init);
      MeshEntriesTile(m, IndexOffset(init), VertexOffset(init));
      TilesConcat(MergedEntries(init), MeshEntries(m, IndexOffset(init), VertexOffset(init)), 0, IndexTotal(init),
                  IndexTotal(ms));
    }
  }

  /** The mesh table tiles the whole index buffer in mesh order: every index belongs to exactly one entry, and no
      entry is empty. */
  lemma MeshTableTilesIndices(ms: seq<ImportedMesh>, orthogonalBasis: Float3 -> (Float3, Float3))
    requires AllMeshesFit(ms)
    requires IndexTotal(ms) < UINT32_LIMIT
    ensures var g := Merge(ms, orthogonalBasis); Tiles(g.meshes, 0, |g.indices|)
  {
    MergeSizes(ms, orthogonalBasis);
    MergedEntriesOfMerge(ms, orthogonalBasis);
    MergedEntriesTile(ms);
  }

  /** Every index in the list lies in [low, high). */
  ghost predicate IndicesWithin(s: seq<uint32>, low: nat, high: nat)
  {
    forall x :: x in s ==> low <= x < high
  }

  /** A mesh table entry is consistent with the buffers: its index range and vertex range are inside them, and each
      of its indices addresses a vertex of its own range. */
  ghost predicate EntryAddressesOwnVertices(e: MeshMetaData, indices: seq<uint32>, vertexCount: nat)
  {
    && e.indexOffset + e.indexCount <= |indices|
    && e.vertexOffset + e.vertexCount <= vertexCount
    && IndicesWithin(indices[e.indexOffset..e.indexOffset + e.indexCount], e.vertexOffset, e.vertexOffset + e.vertexCount)
  }

  /** Every index of a mesh addresses one of the mesh's own vertices. */
  ghost predicate MeshIndicesValid(m: ImportedMesh)
  {
    IndicesWithin(m.triindices, 0, |m.positions|) && IndicesWithin(m.quadindices, 0, |m.positions|)
  }

  lemma OffsetIndicesWithin(addend: seq<uint32>, offset: uint32, vertexCount: nat)
    requires offset + vertexCount <= UINT32_LIMIT
    requires IndicesWithin(addend, 0, vertexCount)
    ensures IndicesWithin(OffsetIndices(addend, offset), offset, offset + vertexCount)
  {
    var r := OffsetIndices(addend, offset);
    forall x | x in r
      ensures offset <= x < offset + vertexCount
    {
      var i :| 0 <= i < |r| && r[i] == x;
      assert addend[i] in addend;
    }
  }

  /** The index buffer alone, as Merge builds it. */
  function MergedIndices(ms: seq<ImportedMesh>): seq<uint32>
    requires AllMeshesFit(ms)
  {
    if ms == [] then []
    else
      var init := ms[..|ms| - 1];
      var m := ms[|ms| - 1];
      MergedIndices(init) + OffsetIndices(m.triindices, VertexOffset(init)) + OffsetIndices(m.quadindices, VertexOffset(init))
  }

  lemma {:induction false} MergedIndicesOfMerge(ms: seq<ImportedMesh>, orthogonalBasis: Float3 -> (Float3, Float3))
    requires AllMeshesFit(ms)
    ensures Merge(ms, orthogonalBasis).indices == MergedIndices(ms)
  {
    if ms != [] {
      MergedIndicesOfMerge(ms[..|ms| - 1], orthogonalBasis);
    }
  }

  /** Appending to the buffers keeps an entry's indices where they were. */
  lemma EntryKeptByAppend(e: MeshMetaData, indices: seq<uint32>, more: seq<uint32>, vertexCount: nat, moreVertices: nat)
    requires EntryAddressesOwnVertices(e, indices, vertexCount)
    ensures EntryAddressesOwnVertices(e, indices + more, vertexCount + moreVertices)
  {
    assert (indices + more)[e.indexOffset..e.indexOffset + e.indexCount] == indices[e.indexOffset..e.indexOffset + e.indexCount];
  }

  /** One mesh's entries, placed after the earlier indices and vertices, address the mesh's own vertices. */
  lemma MeshEntriesAddressOwnVertices(m: ImportedMesh, before: seq<uint32>, vertexOffset: uint32)
    requires MeshFits(m) && MeshIndicesValid(m)
    requires |before| + |m.triindices| + |m.quadindices| < UINT32_LIMIT
    requires vertexOffset + |m.positions| < UINT32_LIMIT
    ensures var indices := before + OffsetIndices(m.triindices, vertexOffset) + OffsetIndices(m.quadindices, vertexOffset);
            forall e :: e in MeshEntries(m, |before|, vertexOffset) ==>
              EntryAddressesOwnVertices(e, indices, vertexOffset + |m.positions|)
  {
    var io := |before|;
    var tri := OffsetIndices(m.triindices, vertexOffset);
    var quad := OffsetIndices(m.quadindices, vertexOffset);
    var indices := before + tri + quad;
    OffsetIndicesWithin(m.triindices, vertexOffset, |m.positions|);
    OffsetIndicesWithin(m.quadindices, vertexOffset, |m.positions|);
    assert indices[io..io + |m.triindices|] == tri;
    assert indices[io + |m.triindices|..io + |m.triindices| + |m.quadindices|] == quad;
  }

  lemma {:induction false} MergedEntriesAddressOwnVertices(ms: seq<ImportedMesh>)
    requires AllMeshesFit(ms)
    requires forall k :: 0 <= k < |ms| ==> MeshIndicesValid(ms[k])
    requires IndexTotal(ms) < UINT32_LIMIT && VertexTotal(ms) < UINT32_LIMIT
    ensures |MergedIndices(ms)| == IndexTotal(ms)
    ensures forall e :: e in MergedEntries(ms) ==> EntryAddressesOwnVertices(e, MergedIndices(ms), VertexTotal(ms))
  {
    if ms != [] {
      var init := ms[..|ms| - 1];
      var m := ms[|ms| - 1];
      MergedEntriesAddressOwnVertices(init);
      OffsetsAreTotals(init);
      var vo := VertexOffset(init);
      var more := OffsetIndices(m.triindices, vo) + OffsetIndices(m.quadindices, vo);
      assert MergedIndices(ms) == MergedIndices(init) + more;
      forall e | e in MergedEntries(init)
        ensures EntryAddressesOwnVertices(e, MergedIndices(ms), VertexTotal(ms))
      {
        EntryKeptByAppend(e, MergedIndices(init), more, VertexTotal(init), |m.positions|);
      }
      MeshEntriesAddressOwnVertices(m, MergedIndices(init), vo);
    }
  }

  /** Every mesh table entry addresses only its own mesh's vertices, provided each imported mesh's indices address
      its own vertices and the totals fit the uint32 offsets. */
  lemma MeshTableAddressesOwnVertices(ms: seq<ImportedMesh>, orthogonalBasis: Float3 -> (Float3, Float3))
    requires AllMeshesFit(ms)
    requires forall k :: 0 <= k < |ms| ==> MeshIndicesValid(ms[k])
    requires IndexTotal(ms) < UINT32_LIMIT && VertexTotal(ms) < UINT32_LIMIT
    ensures var g := Merge(ms, orthogonalBasis);
            forall e :: e in g.meshes ==> EntryAddressesOwnVertices(e, g.indices, |g.positions|)
  {
    MergeSizes(ms, orthogonalBasis);
    MergedEntriesOfMerge(ms, orthogonalBasis);
    MergedIndicesOfMerge(ms, orthogonalBasis);
    MergedEntriesAddressOwnVertices(ms);
  }

  /** Every face index count is 3 (a triangle) or 4 (a quad). */
  lemma {:induction false} FaceIndexCountsAreTrianglesOrQuads(ms: seq<ImportedMesh>, orthogonalBasis: Float3 -> (Float3, Float3))
    requires AllMeshesFit(ms)
    ensures forall x :: x in Merge(ms, orthogonalBasis).faceIndexCounts ==> x == 3 || x == 4
  {
    if ms != [] {
      FaceIndexCountsAreTrianglesOrQuads(ms[..|ms| - 1], orthogonalBasis);
    }
  }

  /** Every stored tangent carries a handedness of -1 or 1. */
  lemma {:induction false} TangentHandednessIsSign(ms: seq<ImportedMesh>, orthogonalBasis: Float3 -> (Float3, Float3))
    requires AllMeshesFit(ms)
    ensures forall t :: t in Merge(ms, orthogonalBasis).tangents ==> t.w == 1.0 || t.w == -1.0
  {
    if ms != [] {
      var m := ms[|ms| - 1];
      TangentHandednessIsSign(ms[..|ms| - 1], orthogonalBasis);
      forall i | 0 <= i < |m.positions|
        ensures var w := VertexTangent(m, i, orthogonalBasis).w; w == 1.0 || w == -1.0
      {
        VertexTangentFacts(m, i, orthogonalBasis);
      }
    }
  }

  /** The merged geometry the built scene currently holds. */
  function Snapshot(built: BuiltScene): Geometry
    reads built`meshes, built`indices, built`faceIndexCounts, built`positions, built`uvs, built`normals, built`tangents
  {
    Geometry(built.meshes, built.indices, built.faceIndexCounts, built.positions, built.uvs, built.normals, built.tangents)
  }

  /** The face-count loop of BuildMeshes: one entry per face, each the face's index count. */
  method AppendFaceIndexCounts(built: BuiltScene, indicesPerFace: uint32, faceCount: nat)
    modifies built`faceIndexCounts
    ensures built.faceIndexCounts == old(built.faceIndexCounts) + Repeat(indicesPerFace, faceCount)
  {
    for i := 0 to faceCount
      invariant built.faceIndexCounts == old(built.faceIndexCounts) + Repeat(indicesPerFace, i)
    {
      built.faceIndexCounts := built.faceIndexCounts + [indicesPerFace];
    }
  }

  /** The per-vertex loop of BuildMeshes: each vertex's normal and its tangent frame. */
  method AppendVertexFrames(built: BuiltScene, mesh: ImportedMesh, orthogonalBasis: Float3 -> (Float3, Float3))
    requires |mesh.normals| >= |mesh.positions|
    modifies built`normals, built`tangents
    ensures built.normals == old(built.normals) + mesh.normals[..|mesh.positions|]
    ensures built.tangents == old(built.tangents) + VertexTangents(mesh, |mesh.positions|, orthogonalBasis)
  {
    var vertexCount := |mesh.positions|;
    for i := 0 to vertexCount
      invariant built.normals == old(built.normals) + mesh.normals[..i]
      invariant built.tangents == old(built.tangents) + VertexTangents(mesh, i, orthogonalBasis)
    {
      var n := mesh.normals[i];
      var t, b;
      if i < |mesh.tangents| && i < |mesh.bitangents| {
        t, b := mesh.tangents[i], mesh.bitangents[i];
      } else {
        t, b := orthogonalBasis(n).0, orthogonalBasis(n).1;
      }

      // Gram-Schmidt, then the handedness of the input bitangent
      t := Sub3(t, Scale3(Dot(n, t), n));
      var handedness := if Dot(Cross(n, t), b) < 0.0 then -1.0 else 1.0;

      var frame := Float4(t.x, t.y, t.z, handedness);
      assert frame == VertexTangent(mesh, i, orthogonalBasis);
      built.normals := built.normals + [n];
      built.tangents := built.tangents + [frame];
      assert mesh.normals[..i + 1] == mesh.normals[..i] + [n];
      assert VertexTangents(mesh, i + 1, orthogonalBasis) == VertexTangents(mesh, i, orthogonalBasis) + [frame];
    }
  }

  /** One index-list branch of BuildMeshes (the triangle list with 3 indices per face, or the quad list with 4):
      when the list is non-empty, a mesh table entry, the shifted indices and the face index counts, and the index
      offset advanced past the list. */
  method AppendIndexList(built: BuiltScene, list: seq<uint32>, indicesPerFace: uint32, indexOffset: uint32,
                         vertexCount: uint32, vertexOffset: uint32, materialHash: Hash32)
    returns (nextIndexOffset: uint32)
    requires |list| < UINT32_LIMIT && indicesPerFace > 0
    modifies built`meshes, built`indices, built`faceIndexCounts
    ensures built.meshes == old(built.meshes)
      + (if |list| > 0 then [MeshMetaData(|list|, indexOffset, vertexCount, vertexOffset, materialHash, indicesPerFace)] else [])
    ensures built.indices == old(built.indices) + OffsetIndices(list, vertexOffset)
    ensures built.faceIndexCounts == old(built.faceIndexCounts) + Repeat(indicesPerFace, |list| / indicesPerFace as int)
    ensures nextIndexOffset == AddU32(indexOffset, |list|)
  {
    nextIndexOffset := indexOffset;
    if |list| > 0 {
      var meshData := MeshMetaData(|list|, indexOffset, vertexCount, vertexOffset, materialHash, indicesPerFace);
      built.meshes := built.meshes + [meshData];
      AppendAndOffsetIndices(list, vertexOffset, built);
      AppendFaceIndexCounts(built, indicesPerFace, meshData.indexCount as int / indicesPerFace as int);
      nextIndexOffset := AddU32(nextIndexOffset, meshData.indexCount);
    } else {
      assert OffsetIndices(list, vertexOffset) == [];
      assert Repeat(indicesPerFace, |list| / indicesPerFace as int) == [];
    }
  }

  /** The body of the BuildMeshes loop for one mesh. */
  method AppendMesh(built: BuiltScene, mesh: ImportedMesh, indexOffset: uint32, vertexOffset: uint32,
                    orthogonalBasis: Float3 -> (Float3, Float3))
    returns (nextIndexOffset: uint32)
    requires MeshFits(mesh)
    modifies built`meshes, built`indices, built`faceIndexCounts, built`positions, built`uvs, built`normals, built`tangents
    ensures Snapshot(built) == Concat(old(Snapshot(built)), MeshGeometry(mesh, indexOffset, vertexOffset, orthogonalBasis))
    ensures nextIndexOffset == AddU32(AddU32(indexOffset, |mesh.triindices|), |mesh.quadindices|)
  {
    var vertexCount: uint32 := |mesh.positions|;
    var quadOffset := AppendIndexList(built, mesh.triindices, 3, indexOffset, vertexCount, vertexOffset, mesh.materialHash);
    nextIndexOffset := AppendIndexList(built, mesh.quadindices, 4, quadOffset, vertexCount, vertexOffset, mesh.materialHash);
    built.positions := built.positions + mesh.positions;
    built.uvs := built.uvs + mesh.uv0;
    AppendVertexFrames(built, mesh, orthogonalBasis);
    AppendAssociative(old(built.indices), OffsetIndices(mesh.triindices, vertexOffset),
                      OffsetIndices(mesh.quadindices, vertexOffset));
    AppendAssociative(old(built.faceIndexCounts), Repeat(3, |mesh.triindices| / 3), Repeat(4, |mesh.quadindices| / 4));
    assert built.meshes == old(built.meshes) + MeshEntries(mesh, indexOffset, vertexOffset);
  }

  /** BuildMeshes: appends, mesh by mesh, a mesh table entry per non-empty index list, the indices shifted by the
      running vertex offset, the face index counts, and the vertices with their normals and tangent frames. */
  method BuildMeshes(imported: ImportedModel, built: BuiltScene, orthogonalBasis: Float3 -> (Float3, Float3))
    requires AllMeshesFit(imported.meshes)
    modifies built`meshes, built`indices, built`faceIndexCounts, built`positions, built`uvs, built`normals, built`tangents
    ensures Snapshot(built) == Concat(old(Snapshot(built)), Merge(imported.meshes, orthogonalBasis))
  {
    var meshes := imported.meshes;
    var vertexOffset: uint32 := 0;
    var indexOffset: uint32 := 0;
    for scan := 0 to |meshes|
      invariant Snapshot(built) == Concat(old(Snapshot(built)), Merge(meshes[..scan], orthogonalBasis))
      invariant vertexOffset == VertexOffset(meshes[..scan]) && indexOffset == IndexOffset(meshes[..scan])
    {
      var mesh := meshes[scan];
      ghost var done := Merge(meshes[..scan], orthogonalBasis);
      ghost var added := MeshGeometry(mesh, indexOffset, vertexOffset, orthogonalBasis);
      assert meshes[..scan + 1][..scan] == meshes[..scan];
      assert Merge(meshes[..scan + 1], orthogonalBasis) == Concat(done, added);
      indexOffset := AppendMesh(built, mesh, indexOffset, vertexOffset, orthogonalBasis);
      vertexOffset := AddU32(vertexOffset, |mesh.positions|);
      ConcatAssociative(old(Snapshot(built)), done, added);
    }
    assert meshes[..|meshes|] == meshes;
  }

  // =================================================================================================================
  // The scene build

  /** BuildScene: imports the materials (importResults[k] is the result of importing the k-th material file), merges
      the meshes, sets the background intensity to 1.2 * (0.9, 0.84, 0.78) and copies the camera. ImportMaterials
      always succeeds, so the early return on its error never happens. The models and instances of the imported
      model are not copied. */
  method BuildScene(imported: ImportedModel, importResults: seq<Option<ImportedMaterialData>>,
                    orthogonalBasis: Float3 -> (Float3, Float3), built: BuiltScene)
    returns (err: Error)
    requires |importResults| == |imported.materials| <= |imported.materialHashes|
    requires ImportsShaped(importResults)
    requires |built.materialHashes| == |built.materials|
    requires AllMeshesFit(imported.meshes)
    modifies built
    ensures err == Success
    ensures MaterialsImported(built.textures, built.materialHashes, built.materials, imported.materialHashes, importResults,
                              old(built.materialHashes), old(built.materials), old(built.textures))
    ensures Snapshot(built) == Concat(old(Snapshot(built)), Merge(imported.meshes, orthogonalBasis))
    ensures built.backgroundIntensity == Float3(1.2 * 0.9, 1.2 * 0.84, 1.2 * 0.78)
    ensures built.camera == imported.camera
    ensures built.models == old(built.models) && built.instances == old(built.instances)
  {
    err := ImportMaterials(imported, importResults, built);
    FinishScene(imported, built, orthogonalBasis);
  }

  /** The part of BuildScene after the material import: the meshes, the background intensity and the camera. */
  method FinishScene(imported: ImportedModel, built: BuiltScene, orthogonalBasis: Float3 -> (Float3, Float3))
    requires AllMeshesFit(imported.meshes)
    modifies built`meshes, built`indices, built`faceIndexCounts, built`positions, built`uvs, built`normals, built`tangents
    modifies built`backgroundIntensity, built`camera
    ensures Snapshot(built) == Concat(old(Snapshot(built)), Merge(imported.meshes, orthogonalBasis))
    ensures built.backgroundIntensity == Float3(1.2 * 0.9, 1.2 * 0.84, 1.2 * 0.78)
    ensures built.camera == imported.camera
  {
    BuildMeshes(imported, built, orthogonalBasis);
    ghost var merged := Snapshot(built);

    var intensityScale := 1.2;
    built.backgroundIntensity := Scale3(intensityScale, Float3(0.9, 0.84, 0.78));
    built.camera := imported.camera;
    assert Snapshot(built) == merged;
  }
}
