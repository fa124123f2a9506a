/** The Disney scene build processor: it reads a scene file listing element files, parses each element file (its
    root mesh, its instanced-primitives archives and its instanced copies) and adds every element to the imported
    model by fanning out element copies x meshes x instances.

    JSON documents are abstract: a document is an ordered list of the entries the processor reads, and a value that
    fails to parse (a matrix, a string member) is None. Documents are looked up by path in ContentFiles; a path with
    no document is a file that fails to open. */
module DisneySceneBuildProcessor {
  import opened BasicTypes
  import opened StringUtil
  import opened SceneBuildPipeline
  import Core = BuildScene

  /** A count stored into a uint32 field. */
  function Trunc32(n: nat): (r: uint32)
    ensures n < UINT32_LIMIT ==> r == n
  {
    n % UINT32_LIMIT
  }

  // =================================================================================================================
  // Content root

  /** ContentRoot: the source name up to and including its last '~', or the empty string when it has none. */
  function ContentRoot(sourceName: string): (root: string)
    ensures '~' !in sourceName ==> root == []
    ensures '~' in sourceName ==> && 0 < |root| <= |sourceName| && root == sourceName[..|root|]
                                  && root[|root| - 1] == '~' && '~' !in sourceName[|root|..]
  {
    match FindLastChar(sourceName, '~')
    case None => []
    case Some(i) => sourceName[..i + 1]
  }

  // =================================================================================================================
  // The JSON documents, abstracted

  /** An instance under an obj file of a primitives file, with its transform (None when it is not a 4x4 matrix). */
  datatype InstanceEntry = InstanceEntry(name: string, transform: Option<Float4x4>)

  /** An obj file of a primitives file with its instances, in document order. */
  datatype PrimObject = PrimObject(objFile: string, instances: seq<InstanceEntry>)

  /** An entry of an element's instancedPrimitiveJsonFiles section: its "type" and "jsonFile" strings, None when
      missing. */
  datatype SectionEntry = SectionEntry(typeName: Option<string>, jsonFile: Option<string>)

  /** An element file: the material file, the root obj file, the instanced-primitives section, the root transform and
      the transforms of the instanced copies (None when one is not a 4x4 matrix). */
  datatype ElementDocument = ElementDocument(
    matFile: string,
    geomObjFile: string,
    instancedPrimitiveJsonFiles: seq<SectionEntry>,
    transformMatrix: Option<Float4x4>,
    instancedCopies: seq<Option<Float4x4>>)

  /** The documents by path: scene files (None when the "elements" member is missing), element files, primitives
      files, and the (hash, material) lists the material importer reads from each material file. */
  datatype ContentFiles = ContentFiles(
    sceneFiles: map<string, Option<seq<string>>>,
    elementFiles: map<string, ElementDocument>,
    primFiles: map<string, seq<PrimObject>>,
    materialFiles: map<string, (seq<Hash32>, seq<ImportedMaterialData>)>)

  // =================================================================================================================
  // Mesh descriptions

  /** An instance of one of a mesh description's obj files. */
  datatype MeshInstance = MeshInstance(meshIndex: uint32, transform: Float4x4)

  /** Stands for the uninitialised slots that Resize adds before they are filled. */
  const UnsetInstance: MeshInstance := MeshInstance(0, Identity())

  /** A mesh description's lists while it is filled. */
  datatype MeshLists = MeshLists(objFiles: seq<string>, instances: seq<MeshInstance>)

  /** A finished mesh description. */
  datatype MeshValue = MeshValue(materialFile: string, objFiles: seq<string>, instances: seq<MeshInstance>)

  class MeshDescription {
    var materialFile: string
    var objFiles: seq<string>
    var instances: seq<MeshInstance>

    constructor ()
      ensures materialFile == [] && objFiles == [] && instances == []
    {
      materialFile, objFiles, instances := [], [], [];
    }

    function Lists(): MeshLists
      reads this`objFiles, this`instances
    {
      MeshLists(objFiles, instances)
    }

    function Value(): MeshValue
      reads this
    {
      MeshValue(materialFile, objFiles, instances)
    }
  }

  /** The instances under one obj file, each with the obj file's index; None when a transform does not parse. */
  function ObjInstances(entries: seq<InstanceEntry>, meshIndex: uint32): (r: Option<seq<MeshInstance>>)
    ensures r.Some? <==> forall i :: 0 <= i < |entries| ==> entries[i].transform.Some?
    ensures r.Some? ==> |r.value| == |entries|
    ensures r.Some? ==> forall i :: 0 <= i < |entries| ==> r.value[i] == MeshInstance(meshIndex, entries[i].transform.value)
  {
    if entries == [] then Some([])
    else
      var init := entries[..|entries| - 1];
      assert forall i :: 0 <= i < |init| ==> init[i] == entries[i];
      match ObjInstances(init, meshIndex)
      case None => None
      case Some(done) =>
        match entries[|entries| - 1].transform
        case None => None
        case Some(t) => Some(done + [MeshInstance(meshIndex, t)])
  }

  /** What the obj files of a primitives file add: each obj file, prefixed by the content root, and its instances,
      which carry that obj file's index. None when a transform does not parse. */
  function PrimsAdded(root: string, objects: seq<PrimObject>, lists: MeshLists): Option<MeshLists>
  {
    if objects == [] then Some(lists)
    else
      match PrimsAdded(root, objects[..|objects| - 1], lists)
      case None => None
      case Some(prev) =>
        var o := objects[|objects| - 1];
        match ObjInstances(o.instances, Trunc32(|prev.objFiles|))
        case None => None
        case Some(added) => Some(MeshLists(prev.objFiles + [root + o.objFile], prev.instances + added))
  }

  /** ParseInstancePrimitivesFile's result: None when the file does not open or an instance transform does not
      parse. */
  function PrimFileAdded(content: ContentFiles, root: string, sourceId: string, lists: MeshLists): Option<MeshLists>
  {
    if sourceId !in content.primFiles then None else PrimsAdded(root, content.primFiles[sourceId], lists)
  }

  /** ParseInstancePrimitivesSection's result: entries whose type is not "archive" are skipped; a missing type or
      jsonFile, or a failing primitives file, is a failure. */
  function SectionAdded(content: ContentFiles, root: string, section: seq<SectionEntry>, lists: MeshLists): Option<MeshLists>
  {
    if section == [] then Some(lists)
    else
      match SectionAdded(content, root, section[..|section| - 1], lists)
      case None => None
      case Some(prev) =>
        var e := section[|section| - 1];
        if e.typeName.None? then None
        else if e.typeName.value != "archive" then Some(prev)
        else if e.jsonFile.None? then None
        else PrimFileAdded(content, root, root + e.jsonFile.value, prev)
  }

  // -- Properties of the mesh description lists

  /** A failure on a prefix of the obj files is a failure of the whole file. */
  lemma {:induction false} PrimsAddedFailureStays(root: string, objects: seq<PrimObject>, k: nat, lists: MeshLists)
    requires k <= |objects| && PrimsAdded(root, objects[..k], lists).None?
    ensures PrimsAdded(root, objects, lists).None?
  {
    if k < |objects| {
      assert objects[..|objects| - 1][..k] == objects[..k];
      PrimsAddedFailureStays(root, objects[..|objects| - 1], k, lists);
    } else {
      assert objects[..k] == objects;
    }
  }

  /** A failure on a prefix of the section is a failure of the whole section. */
  lemma {:induction false} SectionAddedFailureStays(content: ContentFiles, root: string, section: seq<SectionEntry>,
                                                    k: nat, lists: MeshLists)
    requires k <= |section| && SectionAdded(content, root, section[..k], lists).None?
    ensures SectionAdded(content, root, section, lists).None?
  {
    if k < |section| {
      assert section[..|section| - 1][..k] == section[..k];
      SectionAddedFailureStays(content, root, section[..|section| - 1], k, lists);
    } else {
      assert section[..k] == section;
    }
  }

  /** The instance count over a list of obj files. */
  function PrimInstanceCount(objects: seq<PrimObject>): nat
  {
    if objects == [] then 0 else PrimInstanceCount(objects[..|objects| - 1]) + |objects[|objects| - 1].instances|
  }

  /** A primitives file adds one obj file per object and one instance per instance entry. */
  lemma {:induction false} PrimsAddedSizes(root: string, objects: seq<PrimObject>, lists: MeshLists)
    requires PrimsAdded(root, objects, lists).Some?
    ensures |PrimsAdded(root, objects, lists).value.objFiles| == |lists.objFiles| + |objects|
    ensures |PrimsAdded(root, objects, lists).value.instances| == |lists.instances| + PrimInstanceCount(objects)
  {
    if objects != [] {
      PrimsAddedSizes(root, objects[..|objects| - 1], lists);
    }
  }

  /** A primitives file keeps the earlier lists and appends one obj file per object, the content root followed by its
      name, and one instance per instance entry. */
  lemma {:induction false} PrimsAddedShape(root: string, objects: seq<PrimObject>, lists: MeshLists)
    requires PrimsAdded(root, objects, lists).Some?
    ensures var r := PrimsAdded(root, objects, lists).value;
            && |r.objFiles| == |lists.objFiles| + |objects|
            && r.objFiles[..|lists.objFiles|] == lists.objFiles
            && (forall j :: 0 <= j < |objects| ==> r.objFiles[|lists.objFiles| + j] == root + objects[j].objFile)
            && |r.instances| == |lists.instances| + PrimInstanceCount(objects)
            && r.instances[..|lists.instances|] == lists.instances
  {
    if objects != [] {
      var init := objects[..|objects| - 1];
      PrimsAddedShape(root, init, lists);
      var prev := PrimsAdded(root, init, lists).value;
      var r := PrimsAdded(root, objects, lists).value;
      forall j | 0 <= j < |objects|
        ensures r.objFiles[|lists.objFiles| + j] == root + objects[j].objFile
      {
        if j < |init| {
          assert r.objFiles[|lists.objFiles| + j] == prev.objFiles[|lists.objFiles| + j];
        }
      }
      assert r.objFiles[..|lists.objFiles|] == prev.objFiles[..|lists.objFiles|];
      assert r.instances[..|lists.instances|] == prev.instances[..|lists.instances|];
    }
  }

  /** The obj files before obj file j and obj file j itself fit in the total instance count. */
  lemma {:induction false} PrimInstanceCountPrefix(objects: seq<PrimObject>, j: nat)
    requires j < |objects|
    ensures PrimInstanceCount(objects[..j]) + |objects[j].instances| <= PrimInstanceCount(objects)
  {
    var init := objects[..|objects| - 1];
    if j < |init| {
      assert init[..j] == objects[..j];
      PrimInstanceCountPrefix(init, j);
    } else {
      assert init == objects[..j];
    }
  }

  /** Instance i of obj file j of a primitives file lands after the instances of the obj files before it, with the
      index of obj file j and its own transform. */
  lemma {:induction false} PrimInstanceOfObject(root: string, objects: seq<PrimObject>, lists: MeshLists, j: nat, i: nat)
    requires PrimsAdded(root, objects, lists).Some?
    requires j < |objects| && i < |objects[j].instances|
    ensures objects[j].instances[i].transform.Some?
    ensures var r := PrimsAdded(root, objects, lists).value;
            && |lists.instances| + PrimInstanceCount(objects[..j]) + i < |r.instances|
            && r.instances[|lists.instances| + PrimInstanceCount(objects[..j]) + i]
               == MeshInstance(Trunc32(|lists.objFiles| + j), objects[j].instances[i].transform.value)
  {
    var init := objects[..|objects| - 1];
    var prev := PrimsAdded(root, init, lists).value;
    var r := PrimsAdded(root, objects, lists).value;
    var o := objects[|objects| - 1];
    var added := ObjInstances(o.instances, Trunc32(|prev.objFiles|)).value;
    assert r.instances == prev.instances + added;
    PrimsAddedSizes(root, init, lists);
    var k := |lists.instances| + PrimInstanceCount(objects[..j]) + i;
    if j < |init| {
      assert init[..j] == objects[..j];
      PrimInstanceCountPrefix(init, j);
      PrimInstanceOfObject(root, init, lists, j, i);
      assert r.instances[k] == prev.instances[k];
    } else {
      assert init == objects[..j];
      assert r.instances[k] == added[i];
    }
  }

  // -- Parsing into a mesh description

  /** The instance loop of ParseInstancePrimitivesFile for one obj file: grows the instance list by the entry count,
      then sets each new slot's mesh index and transform, failing at the first transform that does not parse. */
  method AddObjInstances(mesh: MeshDescription, entries: seq<InstanceEntry>, meshIndex: uint32) returns (err: Error)
    modifies mesh`instances
    ensures err.Success? <==> ObjInstances(entries, meshIndex).Some?
    ensures err.Success? ==> mesh.instances == old(mesh.instances) + ObjInstances(entries, meshIndex).value
  {
    var instanceOffset := |mesh.instances|;
    mesh.instances := mesh.instances + seq(|entries|, _ => UnsetInstance);
    for index := 0 to |entries|
      invariant |mesh.instances| == instanceOffset + |entries|
      invariant mesh.instances[..instanceOffset] == old(mesh.instances)
      invariant forall i :: 0 <= i < index ==>
                  entries[i].transform.Some? && mesh.instances[instanceOffset + i] == MeshInstance(meshIndex, entries[i].transform.value)
    {
      var slot := instanceOffset + index;
      mesh.instances := mesh.instances[slot := mesh.instances[slot].(meshIndex := meshIndex)];
      match entries[index].transform
      case None =>
        return Failure("Failed to parse transform from instance");
      case Some(transform) =>
        mesh.instances := mesh.instances[slot := mesh.instances[slot].(transform := transform)];
    }
    assert mesh.instances == old(mesh.instances) + ObjInstances(entries, meshIndex).value;
    err := Success;
  }

  /** ParseInstancePrimitivesFile: opens the primitives file and adds, per obj file, the obj file and its instances. */
  method ParseInstancePrimitivesFile(content: ContentFiles, root: string, sourceId: string, mesh: MeshDescription)
    returns (err: Error)
    modifies mesh`objFiles, mesh`instances
    ensures err.Success? <==> PrimFileAdded(content, root, sourceId, old(mesh.Lists())).Some?
    ensures err.Success? ==> mesh.Lists() == PrimFileAdded(content, root, sourceId, old(mesh.Lists())).value
  {
    if sourceId !in content.primFiles {
      return Failure("Failed to open primitives file");
    }
    var objects := content.primFiles[sourceId];
    for scan := 0 to |objects|
      invariant PrimsAdded(root, objects[..scan], old(mesh.Lists())) == Some(mesh.Lists())
    {
      assert objects[..scan + 1][..scan] == objects[..scan];
      var objFile := objects[scan];
      var meshIndex := Trunc32(|mesh.objFiles|);
      mesh.objFiles := mesh.objFiles + [root + objFile.objFile];
      err := AddObjInstances(mesh, objFile.instances, meshIndex);
      if err.Failure? {
        PrimsAddedFailureStays(root, objects, scan + 1, old(mesh.Lists()));
        return;
      }
    }
    assert objects[..|objects|] == objects;
    err := Success;
  }

  /** ParseInstancePrimitivesSection: parses the primitives file of every "archive" entry, skipping other types. */
  method ParseInstancePrimitivesSection(content: ContentFiles, root: string, section: seq<SectionEntry>,
                                        mesh: MeshDescription)
    returns (err: Error)
    modifies mesh`objFiles, mesh`instances
    ensures err.Success? <==> SectionAdded(content, root, section, old(mesh.Lists())).Some?
    ensures err.Success? ==> mesh.Lists() == SectionAdded(content, root, section, old(mesh.Lists())).value
  {
    for scan := 0 to |section|
      invariant SectionAdded(content, root, section[..scan], old(mesh.Lists())) == Some(mesh.Lists())
    {
      assert section[..scan + 1][..scan] == section[..scan];
      var element := section[scan];
      if element.typeName.None? {
        SectionAddedFailureStays(content, root, section, scan + 1, old(mesh.Lists()));
        return Failure("'type' parameter missing from instanced primitives section.");
      }
      if element.typeName.value != "archive" {
        continue;
      }
      if element.jsonFile.None? {
        SectionAddedFailureStays(content, root, section, scan + 1, old(mesh.Lists()));
        return Failure("`jsonFile ` parameter missing from instanced primitives section");
      }
      var sourceId := root + element.jsonFile.value;
      err := ParseInstancePrimitivesFile(content, root, sourceId, mesh);
      if err.Failure? {
        SectionAddedFailureStays(content, root, section, scan + 1, old(mesh.Lists()));
        return;
      }
    }
    assert section[..|section|] == section;
    err := Success;
  }

  // =================================================================================================================
  // Element files

  /** A finished element: its mesh descriptions and the transforms of its instanced copies, the root transform
      first. */
  datatype ElementValue = ElementValue(meshes: seq<MeshValue>, instancedCopies: seq<Float4x4>)

  class ElementData {
    var meshes: seq<MeshValue>
    var instancedCopies: seq<Float4x4>

    constructor ()
      ensures meshes == [] && instancedCopies == []
    {
      meshes, instancedCopies := [], [];
    }

    function Value(): ElementValue
      reads this
    {
      ElementValue(meshes, instancedCopies)
    }
  }

  /** The transforms of the instanced copies; None when one of them is not a 4x4 matrix. */
  function AllTransforms(copies: seq<Option<Float4x4>>): (r: Option<seq<Float4x4>>)
    ensures r.Some? <==> forall i :: 0 <= i < |copies| ==> copies[i].Some?
    ensures r.Some? ==> |r.value| == |copies| && forall i :: 0 <= i < |copies| ==> r.value[i] == copies[i].value
  {
    if copies == [] then Some([])
    else
      var init := copies[..|copies| - 1];
      assert forall i :: 0 <= i < |init| ==> init[i] == copies[i];
      match AllTransforms(init)
      case None => None
      case Some(done) =>
        match copies[|copies| - 1]
        case None => None
        case Some(t) => Some(done + [t])
  }

  /** The root mesh description of an element before its instanced-primitives section: the root obj file with one
      instance of it under the identity transform. */
  function RootLists(root: string, doc: ElementDocument): MeshLists
  {
    MeshLists([root + doc.geomObjFile], [MeshInstance(0, Identity())])
  }

  /** ParseElementFile's result: one mesh description (the material file and the root obj file, both prefixed by the
      content root, then the section's primitives) and the copies, the root transform first. None when the file does
      not open, the section fails, or a transform does not parse. */
  function ElementParsed(content: ContentFiles, root: string, path: string): Option<ElementValue>
  {
    if path !in content.elementFiles then None
    else
      var doc := content.elementFiles[path];
      match SectionAdded(content, root, doc.instancedPrimitiveJsonFiles, RootLists(root, doc))
      case None => None
      case Some(lists) =>
        match doc.transformMatrix
        case None => None
        case Some(rootTransform) =>
          match AllTransforms(doc.instancedCopies)
          case None => None
          case Some(copies) =>
            Some(ElementValue([MeshValue(root + doc.matFile, lists.objFiles, lists.instances)], [rootTransform] + copies))
  }

  /** Every instance names one of the description's obj files. */
  predicate InstancesIndexObjFiles(lists: MeshLists)
  {
    forall i :: 0 <= i < |lists.instances| ==> lists.instances[i].meshIndex as int < |lists.objFiles|
  }

  /** While the obj file count fits a uint32, a primitives file keeps every instance naming one of the obj files. */
  lemma {:induction false} PrimsAddedKeepsIndexing(root: string, objects: seq<PrimObject>, lists: MeshLists)
    requires InstancesIndexObjFiles(lists)
    requires PrimsAdded(root, objects, lists).Some?
    requires |PrimsAdded(root, objects, lists).value.objFiles| < UINT32_LIMIT
    ensures InstancesIndexObjFiles(PrimsAdded(root, objects, lists).value)
  {
    if objects != [] {
      var init := objects[..|objects| - 1];
      var prev := PrimsAdded(root, init, lists).value;
      var r := PrimsAdded(root, objects, lists).value;
      assert |r.objFiles| == |prev.objFiles| + 1;
      PrimsAddedKeepsIndexing(root, init, lists);
      assert Trunc32(|prev.objFiles|) as int == |prev.objFiles|;
    }
  }

  /** The obj file count never shrinks while a section is parsed. */
  lemma {:induction false} SectionAddedGrows(content: ContentFiles, root: string, section: seq<SectionEntry>, lists: MeshLists)
    requires SectionAdded(content, root, section, lists).Some?
    ensures |lists.objFiles| <= |SectionAdded(content, root, section, lists).value.objFiles|
  {
    if section != [] {
      var init := section[..|section| - 1];
      SectionAddedGrows(content, root, init, lists);
      var prev := SectionAdded(content, root, init, lists).value;
      var e := section[|section| - 1];
      if e.typeName.value == "archive" {
        var sourceId := root + e.jsonFile.value;
        PrimsAddedShape(root, content.primFiles[sourceId], prev);
      }
    }
  }

  /** While the obj file count fits a uint32, a section keeps every instance naming one of the obj files. */
  lemma {:induction false} SectionAddedKeepsIndexing(content: ContentFiles, root: string, section: seq<SectionEntry>,
                                                     lists: MeshLists)
    requires InstancesIndexObjFiles(lists)
    requires SectionAdded(content, root, section, lists).Some?
    requires |SectionAdded(content, root, section, lists).value.objFiles| < UINT32_LIMIT
    ensures InstancesIndexObjFiles(SectionAdded(content, root, section, lists).value)
  {
    if section != [] {
      var init := section[..|section| - 1];
      var prev := SectionAdded(content, root, init, lists).value;
      var e := section[|section| - 1];
      if e.typeName.value == "archive" {
        var sourceId := root + e.jsonFile.value;
        PrimsAddedShape(root, content.primFiles[sourceId], prev);
        SectionAddedKeepsIndexing(content, root, init, lists);
        PrimsAddedKeepsIndexing(root, content.primFiles[sourceId], prev);
      } else {
        SectionAddedKeepsIndexing(content, root, init, lists);
      }
    }
  }

  /** A parsed element has one mesh description, whose first obj file is the root obj file with the identity
      instance first, and, while its obj file count fits a uint32, every instance names one of its obj files. */
  lemma ElementParsedShape(content: ContentFiles, root: string, path: string)
    requires ElementParsed(content, root, path).Some?
    ensures var e := ElementParsed(content, root, path).value;
            var doc := content.elementFiles[path];
            && |e.meshes| == 1 && e.meshes[0].materialFile == root + doc.matFile
            && |e.meshes[0].objFiles| >= 1 && e.meshes[0].objFiles[0] == root + doc.geomObjFile
            && |e.meshes[0].instances| >= 1 && e.meshes[0].instances[0] == MeshInstance(0, Identity())
            && |e.instancedCopies| == 1 + |doc.instancedCopies|
            && (|e.meshes[0].objFiles| < UINT32_LIMIT ==> InstancesIndexObjFiles(MeshLists(e.meshes[0].objFiles, e.meshes[0].instances)))
  {
    var doc := content.elementFiles[path];
    var start := RootLists(root, doc);
    SectionShape(content, root, doc.instancedPrimitiveJsonFiles, start);
    var lists := SectionAdded(content, root, doc.instancedPrimitiveJsonFiles, start).value;
    if |lists.objFiles| < UINT32_LIMIT {
      SectionAddedKeepsIndexing(content, root, doc.instancedPrimitiveJsonFiles, start);
    }
  }

  /** A section keeps the lists it starts from as a prefix. */
  lemma {:induction false} SectionShape(content: ContentFiles, root: string, section: seq<SectionEntry>, lists: MeshLists)
    requires SectionAdded(content, root, section, lists).Some?
    ensures var r := SectionAdded(content, root, section, lists).value;
            && |lists.objFiles| <= |r.objFiles| && r.objFiles[..|lists.objFiles|] == lists.objFiles
            && |lists.instances| <= |r.instances| && r.instances[..|lists.instances|] == lists.instances
  {
    if section != [] {
      var init := section[..|section| - 1];
      SectionShape(content, root, init, lists);
      var prev := SectionAdded(content, root, init, lists).value;
      var r := SectionAdded(content, root, section, lists).value;
      var e := section[|section| - 1];
      if e.typeName.value == "archive" {
        PrimsAddedShape(root, content.primFiles[root + e.jsonFile.value], prev);
        assert r.objFiles[..|lists.objFiles|] == prev.objFiles[..|prev.objFiles|][..|lists.objFiles|];
        assert r.instances[..|lists.instances|] == prev.instances[..|prev.instances|][..|lists.instances|];
      }
    }
  }

  /** ParseElementFile: builds the element's one mesh description and appends its transforms. */
  method ParseElementFile(content: ContentFiles, root: string, path: string, element: ElementData) returns (err: Error)
    modifies element
    ensures err.Success? <==> ElementParsed(content, root, path).Some?
    ensures err.Success? ==>
              var e := ElementParsed(content, root, path).value;
              element.Value() == ElementValue(old(element.meshes) + e.meshes, old(element.instancedCopies) + e.instancedCopies)
  {
    if path !in content.elementFiles {
      return Failure("Failed to open element file");
    }
    var document := content.elementFiles[path];

    var mesh := new MeshDescription();
    mesh.materialFile := root + document.matFile;
    mesh.objFiles := mesh.objFiles + [root + document.geomObjFile];
    mesh.instances := mesh.instances + [MeshInstance(0, Identity())];

    assert mesh.Lists() == RootLists(root, document);
    err := ParseInstancePrimitivesSection(content, root, document.instancedPrimitiveJsonFiles, mesh);
    if err.Failure? {
      return;
    }
    ghost var lists := SectionAdded(content, root, document.instancedPrimitiveJsonFiles, RootLists(root, document)).value;
    ghost var meshValue := mesh.Value();
    assert meshValue == MeshValue(root + document.matFile, lists.objFiles, lists.instances);

    match document.transformMatrix {
      case None =>
        return Failure("Failed to read root transform matrix");
      case Some(rootTransform) =>
        element.instancedCopies := element.instancedCopies + [rootTransform];
    }

    for scan := 0 to |document.instancedCopies|
      invariant element.meshes == old(element.meshes) && mesh.Value() == meshValue
      invariant |element.instancedCopies| == |old(element.instancedCopies)| + 1 + scan
      invariant element.instancedCopies[..|old(element.instancedCopies)| + 1]
                == old(element.instancedCopies) + [document.transformMatrix.value]
      invariant forall i :: 0 <= i < scan ==>
                  document.instancedCopies[i].Some?
                  && element.instancedCopies[|old(element.instancedCopies)| + 1 + i] == document.instancedCopies[i].value
    {
      match document.instancedCopies[scan] {
        case None =>
          return Failure("Failed to read `transformMatrix` from instancedCopy");
        case Some(instanceTransform) =>
          element.instancedCopies := element.instancedCopies + [instanceTransform];
      }
    }

    element.meshes := element.meshes + [mesh.Value()];
    var copies := AllTransforms(document.instancedCopies).value;
    assert element.instancedCopies == old(element.instancedCopies) + ([document.transformMatrix.value] + copies);
    assert ElementParsed(content, root, path) == Some(ElementValue([mesh.Value()], [document.transformMatrix.value] + copies));
    err := Success;
  }

  // =================================================================================================================
  // Adding an element to the imported model

  /** The imported model's lists that the processor fills. */
  datatype SceneLists = SceneLists(
    modelFiles: seq<string>,
    loadedMaterialHashes: seq<Hash32>,
    loadedMaterials: seq<ImportedMaterialData>,
    instances: seq<ModelInstance>)

  function ListsOf(scene: ImportedModel): SceneLists
    reads scene`modelFiles, scene`loadedMaterialHashes, scene`loadedMaterials, scene`instances
  {
    SceneLists(scene.modelFiles, scene.loadedMaterialHashes, scene.loadedMaterials, scene.instances)
  }

  /** The first phase of AddElementToScene: per mesh description its obj files go to the model files, then its
      material file's materials to the loaded materials. The flag is false, and the lists stop growing, at the first
      material file that does not open; the obj files of that description are already appended then. */
  function MaterialsLoaded(content: ContentFiles, meshes: seq<MeshValue>, lists: SceneLists): (SceneLists, bool)
  {
    if meshes == [] then (lists, true)
    else
      var before := MaterialsLoaded(content, meshes[..|meshes| - 1], lists);
      if !before.1 then before
      else
        var prev := before.0;
        var m := meshes[|meshes| - 1];
        if m.materialFile !in content.materialFiles then
          (SceneLists(prev.modelFiles + m.objFiles, prev.loadedMaterialHashes, prev.loadedMaterials, prev.instances), false)
        else
          var library := content.materialFiles[m.materialFile];
          (SceneLists(prev.modelFiles + m.objFiles, prev.loadedMaterialHashes + library.0, prev.loadedMaterials + library.1,
                      prev.instances), true)
  }

  /** A failure on a prefix of the meshes is the result for all of them. */
  lemma {:induction false} MaterialsLoadedFailureStays(content: ContentFiles, meshes: seq<MeshValue>, k: nat, lists: SceneLists)
    requires k <= |meshes| && !MaterialsLoaded(content, meshes[..k], lists).1
    ensures MaterialsLoaded(content, meshes, lists) == MaterialsLoaded(content, meshes[..k], lists)
  {
    if k < |meshes| {
      assert meshes[..|meshes| - 1][..k] == meshes[..k];
      MaterialsLoadedFailureStays(content, meshes[..|meshes| - 1], k, lists);
    } else {
      assert meshes[..k] == meshes;
    }
  }

  /** The instances one element copy makes of one mesh description's instances, in order (MeshCopyInstanceAt gives
      each one). */
  function MeshCopyInstances(copy: Float4x4, instances: seq<MeshInstance>, modelOffset: uint32): (r: seq<ModelInstance>)
    ensures |r| == |instances|
  {
    if instances == [] then []
    else
      var init := instances[..|instances| - 1];
      var inst := instances[|instances| - 1];
      MeshCopyInstances(copy, init, modelOffset) + [ModelInstance(Product(copy, inst.transform), 0, AddU32(inst.meshIndex, modelOffset))]
  }

  /** Instance i of one copy of a mesh description has the copy's transform times the instance's, the instance's obj
      file index moved past the model files there were before the element, and material hash 0. */
  lemma {:induction false} MeshCopyInstanceAt(copy: Float4x4, instances: seq<MeshInstance>, modelOffset: uint32, i: nat)
    requires i < |instances|
    ensures MeshCopyInstances(copy, instances, modelOffset)[i]
            == ModelInstance(Product(copy, instances[i].transform), 0, AddU32(instances[i].meshIndex, modelOffset))
  {
    var init := instances[..|instances| - 1];
    if i < |init| {
      MeshCopyInstanceAt(copy, init, modelOffset, i);
      assert init[i] == instances[i];
    }
  }

  /** The instance count over mesh descriptions. */
  function InstanceCount(meshes: seq<MeshValue>): nat
  {
    if meshes == [] then 0 else InstanceCount(meshes[..|meshes| - 1]) + |meshes[|meshes| - 1].instances|
  }

  /** The instances one element copy makes of all mesh descriptions, mesh by mesh. */
  function CopyInstances(copy: Float4x4, meshes: seq<MeshValue>, modelOffset: uint32): (r: seq<ModelInstance>)
    ensures |r| == InstanceCount(meshes)
  {
    if meshes == [] then []
    else CopyInstances(copy, meshes[..|meshes| - 1], modelOffset) + MeshCopyInstances(copy, meshes[|meshes| - 1].instances, modelOffset)
  }

  /** The fan-out of AddElementToScene: copy by copy, the instances that copy makes of all mesh descriptions. */
  function FanOut(copies: seq<Float4x4>, meshes: seq<MeshValue>, modelOffset: uint32): seq<ModelInstance>
  {
    if copies == [] then []
    else FanOut(copies[..|copies| - 1], meshes, modelOffset) + CopyInstances(copies[|copies| - 1], meshes, modelOffset)
  }

  /** AddElementToScene's result: the lists after the material phase, then, when that succeeds, the fan-out with the
      model file count from before the element as offset. */
  function AddElement(content: ContentFiles, element: ElementValue, lists: SceneLists): (SceneLists, bool)
  {
    var loaded := MaterialsLoaded(content, element.meshes, lists);
    if !loaded.1 then loaded
    else
      var fan := FanOut(element.instancedCopies, element.meshes, Trunc32(|lists.modelFiles|));
      (SceneLists(loaded.0.modelFiles, loaded.0.loadedMaterialHashes, loaded.0.loadedMaterials, loaded.0.instances + fan), true)
  }

  // -- Properties of the fan-out

  /** The meshes before mesh m and mesh m itself fit in the total instance count. */
  lemma {:induction false} InstanceCountPrefix(meshes: seq<MeshValue>, m: nat)
    requires m < |meshes|
    ensures InstanceCount(meshes[..m]) + |meshes[m].instances| <= InstanceCount(meshes)
  {
    var init := meshes[..|meshes| - 1];
    if m < |init| {
      InstanceCountPrefix(init, m);
      assert init[..m] == meshes[..m];
    } else {
      assert init == meshes[..m];
    }
  }

  /** Within one copy, instance i of mesh m comes after the instances of the meshes before m. */
  lemma {:induction false} CopyInstanceAt(copy: Float4x4, meshes: seq<MeshValue>, modelOffset: uint32, m: nat, i: nat)
    requires m < |meshes| && i < |meshes[m].instances|
    ensures InstanceCount(meshes[..m]) + i < InstanceCount(meshes)
    ensures var inst := meshes[m].instances[i];
            CopyInstances(copy, meshes, modelOffset)[InstanceCount(meshes[..m]) + i]
            == ModelInstance(Product(copy, inst.transform), 0, AddU32(inst.meshIndex, modelOffset))
  {
    InstanceCountPrefix(meshes, m);
    var init := meshes[..|meshes| - 1];
    if m < |init| {
      assert init[..m] == meshes[..m];
      CopyInstanceAt(copy, init, modelOffset, m, i);
      InstanceCountPrefix(init, m);
    } else {
      assert init == meshes[..m];
      MeshCopyInstanceAt(copy, meshes[m].instances, modelOffset, i);
    }
  }

  /** Every copy makes one model instance per mesh description instance. */
  lemma {:induction false} FanOutSize(copies: seq<Float4x4>, meshes: seq<MeshValue>, modelOffset: uint32)
    ensures |FanOut(copies, meshes, modelOffset)| == |copies| * InstanceCount(meshes)
  {
    if copies != [] {
      FanOutSize(copies[..|copies| - 1], meshes, modelOffset);
      assert |copies| * InstanceCount(meshes) == (|copies| - 1) * InstanceCount(meshes) + InstanceCount(meshes);
    }
  }

  /** The fan-out is ordered copy, then mesh, then instance: instance i of mesh m under copy c comes after the fan-out
      of the copies before c (c * InstanceCount(meshes) instances, by FanOutSize) and the instances of the meshes
      before m, with the copy's transform times the instance's, the instance's obj file index plus the model offset,
      and material hash 0. */
  lemma {:induction false} FanOutAt(copies: seq<Float4x4>, meshes: seq<MeshValue>, modelOffset: uint32, c: nat, m: nat, i: nat)
    requires c < |copies| && m < |meshes| && i < |meshes[m].instances|
    ensures |FanOut(copies[..c], meshes, modelOffset)| + InstanceCount(meshes[..m]) + i < |FanOut(copies, meshes, modelOffset)|
    ensures var inst := meshes[m].instances[i];
            FanOut(copies, meshes, modelOffset)[|FanOut(copies[..c], meshes, modelOffset)| + InstanceCount(meshes[..m]) + i]
            == ModelInstance(Product(copies[c], inst.transform), 0, AddU32(inst.meshIndex, modelOffset))
  {
    CopyInstanceAt(copies[c], meshes, modelOffset, m, i);
    var init := copies[..|copies| - 1];
    var before := FanOut(init, meshes, modelOffset);
    var made := CopyInstances(copies[|copies| - 1], meshes, modelOffset);
    assert FanOut(copies, meshes, modelOffset) == before + made;
    var j := InstanceCount(meshes[..m]) + i;
    if c < |init| {
      assert init[..c] == copies[..c];
      assert init[c] == copies[c];
      FanOutAt(init, meshes, modelOffset, c, m, i);
    } else {
      assert copies[..c] == init;
      assert FanOut(copies, meshes, modelOffset)[|before| + j] == made[j];
    }
  }

  /** An element of one mesh description appends its obj files to the model files and its fan-out to the
      instances. */
  lemma AddSingleMeshElement(content: ContentFiles, element: ElementValue, lists: SceneLists)
    requires |element.meshes| == 1
    requires AddElement(content, element, lists).1
    ensures AddElement(content, element, lists).0.modelFiles == lists.modelFiles + element.meshes[0].objFiles
    ensures AddElement(content, element, lists).0.instances
            == lists.instances + FanOut(element.instancedCopies, element.meshes, Trunc32(|lists.modelFiles|))
  {
    var meshes := element.meshes;
    assert meshes[..|meshes| - 1] == [];
    assert MaterialsLoaded(content, meshes[..|meshes| - 1], lists) == (lists, true);
  }

  /** The fan-out of the first c copies of a single mesh description holds one instance per copy and instance. */
  lemma SingleMeshFanOutSize(meshes: seq<MeshValue>, copies: seq<Float4x4>, modelOffset: uint32, c: nat)
    requires |meshes| == 1 && c <= |copies|
    ensures |FanOut(copies[..c], meshes, modelOffset)| == c * |meshes[0].instances|
  {
    FanOutSize(copies[..c], meshes, modelOffset);
    assert |copies[..c]| == c;
    assert InstanceCount(meshes) == |meshes[0].instances| by {
      assert meshes[..|meshes| - 1] == [];
    }
  }

  /** For a single mesh description whose instances name its obj files, added to model files that then still fit a
      uint32, with the model file count as offset (AddSingleMeshElement shows this is what AddElement does with a
      parsed element, and ElementParsedShape that a parsed element has one mesh description whose instances name its
      obj files): the instance that copy c makes of instance i sits after the fan-out of the copies before c
      (c * |instances| entries, by SingleMeshFanOutSize), has the copy's transform times the instance's, and names,
      through its mesh index, the model file that holds the instance's obj file. */
  lemma FanOutNamesModelFiles(meshes: seq<MeshValue>, copies: seq<Float4x4>, modelFiles: seq<string>,
                              modelOffset: uint32, c: nat, i: nat)
    requires |meshes| == 1 && InstancesIndexObjFiles(MeshLists(meshes[0].objFiles, meshes[0].instances))
    requires modelOffset as int == |modelFiles| && |modelFiles| + |meshes[0].objFiles| < UINT32_LIMIT
    requires c < |copies| && i < |meshes[0].instances|
    ensures |FanOut(copies[..c], meshes, modelOffset)| + i < |FanOut(copies, meshes, modelOffset)|
    ensures FanOut(copies, meshes, modelOffset)[|FanOut(copies[..c], meshes, modelOffset)| + i].transform
            == Product(copies[c], meshes[0].instances[i].transform)
    ensures FanOut(copies, meshes, modelOffset)[|FanOut(copies[..c], meshes, modelOffset)| + i].meshIdx as int
            == |modelFiles| + meshes[0].instances[i].meshIndex as int
    ensures (modelFiles + meshes[0].objFiles)[FanOut(copies, meshes, modelOffset)[|FanOut(copies[..c], meshes, modelOffset)| + i].meshIdx]
            == meshes[0].objFiles[meshes[0].instances[i].meshIndex]
  {
    assert meshes[..0] == [];
    FanOutAt(copies, meshes, modelOffset, c, 0, i);
    var fan := FanOut(copies, meshes, modelOffset);
    var k := |FanOut(copies[..c], meshes, modelOffset)| + InstanceCount(meshes[..0]) + i;
    assert k == |FanOut(copies[..c], meshes, modelOffset)| + i;
    InstanceNamesModelFile(fan[k], meshes[0].instances[i], modelFiles, meshes[0].objFiles, modelOffset);
  }

  /** A model instance whose mesh index is an instance's obj file index plus the model file count names, in the
      model files followed by the obj files, the instance's obj file. */
  lemma InstanceNamesModelFile(made: ModelInstance, inst: MeshInstance, modelFiles: seq<string>, objFiles: seq<string>,
                               modelOffset: uint32)
    requires made.meshIdx == AddU32(inst.meshIndex, modelOffset)
    requires inst.meshIndex as int < |objFiles|
    requires modelOffset as int == |modelFiles| && |modelFiles| + |objFiles| < UINT32_LIMIT
    ensures made.meshIdx as int == |modelFiles| + inst.meshIndex as int
    ensures (modelFiles + objFiles)[made.meshIdx] == objFiles[inst.meshIndex]
  {
    ConcatIndexRight(modelFiles, objFiles, inst.meshIndex as int, made.meshIdx as int);
  }

  lemma ConcatIndexRight<T>(a: seq<T>, b: seq<T>, j: nat, n: nat)
    requires j < |b| && n == |a| + j
    ensures (a + b)[n] == b[j]
  {
  }

  // -- The methods

  /** ImportDisneyMaterials: appends the hashes and materials read from the material file. */
  method ImportDisneyMaterials(content: ContentFiles, materialFile: string, scene: ImportedModel) returns (err: Error)
    modifies scene`loadedMaterialHashes, scene`loadedMaterials
    ensures err.Success? <==> materialFile in content.materialFiles
    ensures err.Success? ==> && scene.loadedMaterialHashes == old(scene.loadedMaterialHashes) + content.materialFiles[materialFile].0
                             && scene.loadedMaterials == old(scene.loadedMaterials) + content.materialFiles[materialFile].1
    ensures err.Failure? ==> unchanged(scene)
  {
    if materialFile !in content.materialFiles {
      return Failure("Failed to import Disney materials");
    }
    var (materialHashes, importedMaterials) := content.materialFiles[materialFile];
    scene.loadedMaterialHashes := scene.loadedMaterialHashes + materialHashes;
    scene.loadedMaterials := scene.loadedMaterials + importedMaterials;
    err := Success;
  }

  /** The innermost fan-out loop: one model instance per instance of one mesh description. */
  method AppendMeshInstances(scene: ImportedModel, elementTransform: Float4x4, instances: seq<MeshInstance>,
                             modelOffset: uint32)
    modifies scene`instances
    ensures scene.instances == old(scene.instances) + MeshCopyInstances(elementTransform, instances, modelOffset)
  {
    for instIndex := 0 to |instances|
      invariant scene.instances == old(scene.instances) + MeshCopyInstances(elementTransform, instances[..instIndex], modelOffset)
    {
      assert instances[..instIndex + 1][..instIndex] == instances[..instIndex];
      var inst := ModelInstance(Product(elementTransform, instances[instIndex].transform), 0,
                                AddU32(instances[instIndex].meshIndex, modelOffset));
      scene.instances := scene.instances + [inst];
    }
    assert instances[..|instances|] == instances;
  }

  /** The middle fan-out loop: the instances of one element copy, mesh description by mesh description. */
  method AppendCopyInstances(scene: ImportedModel, elementTransform: Float4x4, meshes: seq<MeshValue>, modelOffset: uint32)
    modifies scene`instances
    ensures scene.instances == old(scene.instances) + CopyInstances(elementTransform, meshes, modelOffset)
  {
    for meshIndex := 0 to |meshes|
      invariant scene.instances == old(scene.instances) + CopyInstances(elementTransform, meshes[..meshIndex], modelOffset)
    {
      assert meshes[..meshIndex + 1][..meshIndex] == meshes[..meshIndex];
      ghost var before := scene.instances;
      AppendMeshInstances(scene, elementTransform, meshes[meshIndex].instances, modelOffset);
      Core.AppendAssociative(old(scene.instances), CopyInstances(elementTransform, meshes[..meshIndex], modelOffset),
                             MeshCopyInstances(elementTransform, meshes[meshIndex].instances, modelOffset));
    }
    assert meshes[..|meshes|] == meshes;
  }

  /** AddElementToScene: the material phase, then the fan-out over copies x meshes x instances. */
  method AddElementToScene(content: ContentFiles, element: ElementData, scene: ImportedModel) returns (err: Error)
    modifies scene`modelFiles, scene`loadedMaterialHashes, scene`loadedMaterials, scene`instances
    ensures (ListsOf(scene), err.Success?) == AddElement(content, element.Value(), old(ListsOf(scene)))
  {
    var modelOffset := Trunc32(|scene.modelFiles|);
    var meshes := element.meshes;
    for meshIndex := 0 to |meshes|
      invariant MaterialsLoaded(content, meshes[..meshIndex], old(ListsOf(scene))) == (ListsOf(scene), true)
    {
      assert meshes[..meshIndex + 1][..meshIndex] == meshes[..meshIndex];
      var meshDesc := meshes[meshIndex];
      scene.modelFiles := scene.modelFiles + meshDesc.objFiles;
      err := ImportDisneyMaterials(content, meshDesc.materialFile, scene);
      if err.Failure? {
        MaterialsLoadedFailureStays(content, meshes, meshIndex + 1, old(ListsOf(scene)));
        return;
      }
    }
    assert meshes[..|meshes|] == meshes;
    ghost var loaded := ListsOf(scene);

    var copies := element.instancedCopies;
    for elemInstIdx := 0 to |copies|
      invariant ListsOf(scene) == loaded.(instances := loaded.instances + FanOut(copies[..elemInstIdx], meshes, modelOffset))
    {
      assert copies[..elemInstIdx + 1][..elemInstIdx] == copies[..elemInstIdx];
      AppendCopyInstances(scene, copies[elemInstIdx], meshes, modelOffset);
      Core.AppendAssociative(loaded.instances, FanOut(copies[..elemInstIdx], meshes, modelOffset),
                             CopyInstances(copies[elemInstIdx], meshes, modelOffset));
    }
    assert copies[..|copies|] == copies;
    err := Success;
  }

  // =================================================================================================================
  // The processor

  /** The elements of a scene in order: each parsed and added. A failing element file stops the build; a failing
      AddElementToScene does not, its return value being ignored, and the lists it has grown by then are kept. */
  function ElementsAdded(content: ContentFiles, root: string, names: seq<string>, lists: SceneLists): Option<SceneLists>
  {
    if names == [] then Some(lists)
    else
      match ElementsAdded(content, root, names[..|names| - 1], lists)
      case None => None
      case Some(prev) =>
        match ElementParsed(content, root, names[|names| - 1])
        case None => None
        case Some(element) => Some(AddElement(content, element, prev).0)
  }

  lemma {:induction false} ElementsAddedFailureStays(content: ContentFiles, root: string, names: seq<string>, k: nat,
                                                     lists: SceneLists)
    requires k <= |names| && ElementsAdded(content, root, names[..k], lists).None?
    ensures ElementsAdded(content, root, names, lists).None?
  {
    if k < |names| {
      assert names[..|names| - 1][..k] == names[..k];
      ElementsAddedFailureStays(content, root, names[..|names| - 1], k, lists);
    } else {
      assert names[..k] == names;
    }
  }

  /** The camera the processor gives every Disney scene; degreesToRadians is the conversion constant. */
  function DisneyCamera(degreesToRadians: real): CameraSettings
  {
    CameraSettings(Float3(0.0, 0.0, 5.0), Float3(0.0, 0.0, 0.0), Float3(0.0, 1.0, 0.0), 45.0 * degreesToRadians, 0.1, 500.0)
  }

  /** The imported model's lists after the scene file and its elements; None when the scene file does not open, has
      no "elements" member, or an element file fails. */
  function SceneParsed(content: ContentFiles, sourceName: string): Option<SceneLists>
  {
    if sourceName !in content.sceneFiles || content.sceneFiles[sourceName].None? then None
    else ElementsAdded(content, ContentRoot(sourceName), content.sceneFiles[sourceName].value, SceneLists([], [], [], []))
  }

  /** One pass of Process's element loop: parses the element file and adds the element to the imported model,
      ignoring what AddElementToScene returns. */
  method AddElementFile(content: ContentFiles, root: string, path: string, imported: ImportedModel) returns (err: Error)
    modifies imported`modelFiles, imported`loadedMaterialHashes, imported`loadedMaterials, imported`instances
    ensures err.Success? <==> ElementParsed(content, root, path).Some?
    ensures err.Success? ==> ListsOf(imported) == AddElement(content, ElementParsed(content, root, path).value, old(ListsOf(imported))).0
  {
    var elementData := new ElementData();
    err := ParseElementFile(content, root, path, elementData);
    if err.Failure? {
      return;
    }
    assert elementData.Value() == ElementParsed(content, root, path).value;
    var _ := AddElementToScene(content, elementData, imported);
  }

  /** The import part of Process: the default camera, the scene file, then every element in order. */
  method ImportScene(content: ContentFiles, sourceName: string, degreesToRadians: real)
    returns (err: Error, imported: ImportedModel)
    ensures err.Success? <==> SceneParsed(content, sourceName).Some?
    ensures imported.camera == DisneyCamera(degreesToRadians)
    ensures imported.meshes == [] && imported.materials == [] && imported.materialHashes == []
    ensures err.Success? ==> ListsOf(imported) == SceneParsed(content, sourceName).value
  {
    var contentRoot := ContentRoot(sourceName);
    imported := new ImportedModel();
    imported.camera := DisneyCamera(degreesToRadians);

    if sourceName !in content.sceneFiles {
      return Failure("Failed to open Disney scene file"), imported;
    }
    match content.sceneFiles[sourceName] {
      case None =>
        return Failure("'elements' member not found in Disney scene"), imported;
      case Some(elements) =>
        for scan := 0 to |elements|
          invariant ElementsAdded(content, contentRoot, elements[..scan], SceneLists([], [], [], [])) == Some(ListsOf(imported))
          invariant imported.camera == DisneyCamera(degreesToRadians)
          invariant imported.meshes == [] && imported.materials == [] && imported.materialHashes == []
        {
          assert elements[..scan + 1][..scan] == elements[..scan];
          err := AddElementFile(content, contentRoot, elements[scan], imported);
          if err.Failure? {
            ElementsAddedFailureStays(content, contentRoot, elements, scan + 1, SceneLists([], [], [], []));
            return;
          }
        }
        assert elements[..|elements|] == elements;
    }
    err := Success;
  }

  /** Process: the imported model with the default camera and every element added, then the scene built from it.
      The processor imports no meshes and no materials, so the built scene has no geometry and no materials. */
  method Process(content: ContentFiles, sourceName: string, degreesToRadians: real,
                 orthogonalBasis: Float3 -> (Float3, Float3))
    returns (err: Error, imported: ImportedModel, built: BuiltScene?)
    ensures err.Success? <==> SceneParsed(content, sourceName).Some?
    ensures imported.camera == DisneyCamera(degreesToRadians)
    ensures err.Success? ==> && ListsOf(imported) == SceneParsed(content, sourceName).value
                             && built != null && built.camera == DisneyCamera(degreesToRadians)
                             && built.models == [] && built.instances == []
                             && built.materials == [] && built.textures == [] && built.meshes == []
                             && built.indices == [] && built.positions == []
  {
    err, imported := ImportScene(content, sourceName, degreesToRadians);
    built := null;
    if err.Failure? {
      return;
    }
    built := new BuiltScene();
    err := Core.BuildScene(imported, [], orthogonalBasis, built);
  }
}
