/** What both exporters read from a scene object, how they classify it, and how they call the FBX writer. */
module Manifest {
  import opened Wrappers
  import opened Geometry
  import opened Hierarchy
  import opened Editor
  import opened Paths

  /**
   * The host data the JSON pass reads from one GameObject: its name, world position and
   * local scale, the bounds of its MeshFilter's mesh and of its Renderer (None when the
   * component is missing), the bounds of each of its Colliders in component order (an object
   * may carry several, but at most one Renderer), and whether it has a Light or a Camera.
   */
  datatype NodeInfo = NodeInfo(
    name: string,
    position: Vec3,
    localScale: Vec3,
    mesh: Option<Bounds>,
    renderer: Option<Bounds>,
    colliders: seq<Bounds>,
    light: bool,
    camera: bool)

  /** The `type` and `shapeType` fields of an entry of the separate exporter. */
  datatype Classification = Classification(typeName: string, shapeType: Option<string>)

  /** The separate exporter's if/else chain: Light wins over Camera; only a Model is a "compound" shape. */
  function SeparateClassification(light: bool, camera: bool): (c: Classification)
    ensures c.typeName == "Light" <==> light
    ensures c.typeName == "" <==> !light && camera
    ensures c.typeName == "Model" <==> !light && !camera
    ensures c.shapeType == Some("compound") <==> c.typeName == "Model"
    ensures c.shapeType == None <==> c.typeName != "Model"
  {
    if light then Classification("Light", None)
    else if camera then Classification("", None)
    else Classification("Model", Some("compound"))
  }

  /** The multiple exporter: "Model" by default, then overridden by a Light, or else by a Camera. */
  function MultipleType(light: bool, camera: bool): (t: string)
    ensures t == SeparateClassification(light, camera).typeName
  {
    var t := "Model";
    if light then "Light" else if camera then "" else t
  }

  /** No reference in the list is null. */
  predicate NoneNull(refs: seq<Option<Node>>): (b: bool)
    ensures b <==> None !in refs
  {
    forall i :: 0 <= i < |refs| ==> refs[i].Some?
  }

  /** The objects behind references known not to be null. */
  function Deref(refs: seq<Option<Node>>): (r: seq<Node>)
    requires NoneNull(refs)
    ensures |r| == |refs| && forall i :: 0 <= i < |refs| ==> refs[i] == Some(r[i])
  {
    seq(|refs|, i requires 0 <= i < |refs| => refs[i].value)
  }

  /** One writer call per object, in order, each to "<folder>/<name>.fbx" with the same flags. */
  function ExportCalls(objs: seq<Node>, folder: string, info: Node -> NodeInfo, copyMaterials: bool, copyTextures: bool): (calls: seq<ExportCall>)
    ensures |calls| == |objs|
    ensures forall i :: 0 <= i < |objs| ==>
      calls[i] == ExportCall(objs[i], FbxFileName(folder, info(objs[i]).name), copyMaterials, copyTextures)
  {
    seq(|objs|, i requires 0 <= i < |objs| =>
      ExportCall(objs[i], FbxFileName(folder, info(objs[i]).name), copyMaterials, copyTextures))
  }

  /** The positions of the calls that the writer reports as failed. */
  ghost function FailedAt(calls: seq<ExportCall>, exported: ExportCall -> bool): set<int> {
    set i | 0 <= i < |calls| && !exported(calls[i])
  }

  lemma FailedAtSnoc(calls: seq<ExportCall>, c: ExportCall, exported: ExportCall -> bool)
    ensures |calls| !in FailedAt(calls, exported)
    ensures FailedAt(calls + [c], exported) == FailedAt(calls, exported) + (if exported(c) then {} else {|calls|})
  {
    var all := calls + [c];
    assert forall i :: 0 <= i < |calls| ==> all[i] == calls[i];
  }

  /**
   * One warning per call that the writer reports as failed, so as many warnings as failed
   * calls; a failure never stops the batch.
   */
  function FailureNotices(calls: seq<ExportCall>, exported: ExportCall -> bool): (r: seq<Notice>)
    ensures |r| == |FailedAt(calls, exported)| && |r| <= |calls|
    ensures forall i :: 0 <= i < |r| ==> r[i] == ExportFailed
    ensures r == [] <==> forall i :: 0 <= i < |calls| ==> exported(calls[i])
  {
    if calls == [] then
      assert FailedAt(calls, exported) == {};
      []
    else
      var init := calls[..|calls| - 1];
      var last := calls[|calls| - 1];
      assert calls == init + [last];
      FailedAtSnoc(init, last, exported);
      assert forall i :: 0 <= i < |init| ==> init[i] == calls[i];
      FailureNotices(init, exported) + (if exported(last) then [] else [ExportFailed])
  }

  lemma ExportCallsSnoc(objs: seq<Node>, o: Node, folder: string, info: Node -> NodeInfo, copyMaterials: bool, copyTextures: bool)
    ensures ExportCalls(objs + [o], folder, info, copyMaterials, copyTextures)
         == ExportCalls(objs, folder, info, copyMaterials, copyTextures)
            + [ExportCall(o, FbxFileName(folder, info(o).name), copyMaterials, copyTextures)]
  {
  }

  lemma FailureNoticesSnoc(calls: seq<ExportCall>, c: ExportCall, exported: ExportCall -> bool)
    ensures FailureNotices(calls + [c], exported) == FailureNotices(calls, exported) + (if exported(c) then [] else [ExportFailed])
  {
    assert (calls + [c])[..|calls|] == calls;
  }
}
