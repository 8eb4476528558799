/**
 * ExporterMenuMultiple: the selected objects are exported as they stand. Only objects
 * without a parent are written, each as one FBX file that carries its children, and only
 * they appear in the manifest; nothing in the scene is changed.
 */
module ExporterMenuMultiple {
  import opened Wrappers
  import opened Geometry
  import opened Hierarchy
  import opened Editor
  import opened Paths
  import opened Manifest
  import opened JsonText

  /** The objects of `objs` that have no parent, in list order: the ones the `continue` does not skip. */
  function Roots(objs: seq<Node>, parent: Links): (r: seq<Node>)
    requires forall o :: o in objs ==> o in parent
    ensures |r| <= |objs|
    ensures forall o :: o in r ==> o in objs
  {
    if objs == [] then []
    else
      var init := objs[..|objs| - 1];
      var last := objs[|objs| - 1];
      Roots(init, parent) + (if parent[last].None? then [last] else [])
  }

  /** The roots are exactly the listed objects without a parent. */
  lemma {:induction false} RootsMembers(objs: seq<Node>, parent: Links, o: Node)
    requires forall x :: x in objs ==> x in parent
    ensures o in Roots(objs, parent) <==> o in objs && parent[o].None?
    decreases |objs|
  {
    if objs != [] {
      var init := objs[..|objs| - 1];
      var last := objs[|objs| - 1];
      assert objs == init + [last];
      RootsMembers(init, parent, o);
    }
  }

  lemma RootsSnoc(objs: seq<Node>, o: Node, parent: Links)
    requires (forall x :: x in objs ==> x in parent) && o in parent
    ensures parent[o].Some? ==> Roots(objs + [o], parent) == Roots(objs, parent)
    ensures parent[o].None? ==> Roots(objs + [o], parent) == Roots(objs, parent) + [o]
  {
    var all := objs + [o];
    assert all[..|all| - 1] == objs;
    if parent[o].Some? {
      assert Roots(all, parent) == Roots(objs, parent) + [];
    }
  }

  /** The roots among one more element of the list. */
  lemma RootsStep(objs: seq<Node>, i: nat, parent: Links)
    requires (forall x :: x in objs ==> x in parent) && i < |objs|
    ensures parent[objs[i]].Some? ==> Roots(objs[..i + 1], parent) == Roots(objs[..i], parent)
    ensures parent[objs[i]].None? ==> Roots(objs[..i + 1], parent) == Roots(objs[..i], parent) + [objs[i]]
  {
    assert objs[..i + 1] == objs[..i] + [objs[i]];
    RootsSnoc(objs[..i], objs[i], parent);
  }

  /** The filter keeps the list order: the roots of a concatenation are the roots of each part, one after the other. */
  lemma {:induction false} RootsAppend(a: seq<Node>, b: seq<Node>, parent: Links)
    requires (forall x :: x in a ==> x in parent) && (forall x :: x in b ==> x in parent)
    ensures Roots(a + b, parent) == Roots(a, parent) + Roots(b, parent)
    decreases |b|
  {
    if b == [] {
      assert a + b == a;
    } else {
      var init := b[..|b| - 1];
      var last := b[|b| - 1];
      assert a + b == (a + init) + [last];
      assert b == init + [last];
      RootsAppend(a, init, parent);
      RootsSnoc(a + init, last, parent);
      RootsSnoc(init, last, parent);
    }
  }

  /**
   * ExportGameObject: a null reference stops everything with one warning; otherwise the
   * folder is chosen and every object without a parent is written to "<folder>/<name>.fbx"
   * (a child is skipped; it is part of its root's file), a failed write adding a warning
   * without stopping the batch.
   */
  method ExportGameObject(objs: seq<Option<Node>>, parent: Links, info: Node -> NodeInfo, copyMaterials: bool, copyTextures: bool,
                          oldPath: Option<string>, chosenFolder: string, exported: ExportCall -> bool)
    returns (newPath: Option<string>, calls: seq<ExportCall>, notices: seq<Notice>)
    requires forall i :: 0 <= i < |objs| && objs[i].Some? ==> objs[i].value in parent
    ensures !NoneNull(objs) ==> newPath == None && calls == [] && notices == [ObjectIsNull]
    ensures NoneNull(objs) ==>
      var choice := GetNewPath(oldPath, chosenFolder);
      && newPath == choice.path
      && calls == (if choice.path.None? then [] else ExportCalls(Roots(Deref(objs), parent), choice.path.value, info, copyMaterials, copyTextures))
      && notices == choice.notices + FailureNotices(calls, exported)
  {
    var k := 0;
    while k < |objs|
      invariant 0 <= k <= |objs|
      invariant forall i :: 0 <= i < k ==> objs[i].Some?
    {
      if objs[k].None? {
        assert !NoneNull(objs);
        return None, [], [ObjectIsNull];
      }
      k := k + 1;
    }
    var choice := GetNewPath(oldPath, chosenFolder);
    newPath := choice.path;
    if newPath.None? {
      return newPath, [], choice.notices;
    }
    var failures;
    calls, failures := WriteRootFiles(objs, parent, newPath.value, info, copyMaterials, copyTextures, exported);
    notices := choice.notices + failures;
  }

  /** The export loop of ExportGameObject, with its `continue` for objects that have a parent. */
  method WriteRootFiles(objs: seq<Option<Node>>, parent: Links, folder: string, info: Node -> NodeInfo,
                        copyMaterials: bool, copyTextures: bool, exported: ExportCall -> bool)
    returns (calls: seq<ExportCall>, failures: seq<Notice>)
    requires NoneNull(objs) && forall i :: 0 <= i < |objs| ==> objs[i].value in parent
    ensures calls == ExportCalls(Roots(Deref(objs), parent), folder, info, copyMaterials, copyTextures)
    ensures failures == FailureNotices(calls, exported)
  {
    ghost var targets := Deref(objs);
    calls, failures := [], [];
    for i := 0 to |objs|
      invariant calls == ExportCalls(Roots(targets[..i], parent), folder, info, copyMaterials, copyTextures)
      invariant failures == FailureNotices(calls, exported)
    {
      var obj := objs[i].value;
      RootsStep(targets, i, parent);
      if parent[obj].Some? {
        continue;
      }
      ExportCallsSnoc(Roots(targets[..i], parent), obj, folder, info, copyMaterials, copyTextures);
      var fileName := FbxFileName(folder, info(obj).name);
      if |fileName| != 0 {
        var call := ExportCall(obj, fileName, copyMaterials, copyTextures);
        var isSuccess := exported(call);
        FailureNoticesSnoc(calls, call, exported);
        calls := calls + [call];
        if !isSuccess {
          failures := failures + [ExportFailed];
        }
      }
    }
    assert targets[..|objs|] == targets;
  }

  /** One manifest entry of the multiple exporter: no id, parent id or shape type. */
  datatype MultipleRecord = MultipleRecord(
    typeName: string,
    modelURL: string,
    position: Vec3,
    registrationPoint: ScalarVec3,
    dimensions: Vec3)

  /** Which component's bounds a GetComponentsInChildren call collects. */
  datatype Component = RendererComponent | ColliderComponent

  /** The box GetComponent<Renderer or Collider>() starts from: the object's first such component. */
  function BoundsOf(o: NodeInfo, c: Component): (b: Option<Bounds>)
    ensures c == RendererComponent ==> b == o.renderer
    ensures c == ColliderComponent ==> (b.Some? <==> o.colliders != []) && (b.Some? ==> b.value == o.colliders[0])
  {
    match c
    case RendererComponent => o.renderer
    case ColliderComponent => if o.colliders == [] then None else Some(o.colliders[0])
  }

  /** The boxes of every component of kind `c` on one object, in component order. */
  function ComponentBoxes(o: NodeInfo, c: Component): (bs: seq<Bounds>)
    ensures BoundsOf(o, c).Some? <==> bs != []
    ensures bs != [] ==> bs[0] == BoundsOf(o, c).value
    ensures c == RendererComponent ==> |bs| <= 1
  {
    match c
    case RendererComponent => if o.renderer.Some? then [o.renderer.value] else []
    case ColliderComponent => o.colliders
  }

  /** GetComponentsInChildren<Renderer or Collider>() over the walk `ts`: the boxes found, in walk order. */
  function Boxes(ts: seq<Node>, info: Node -> NodeInfo, c: Component): (bs: seq<Bounds>)
    ensures c == RendererComponent ==> |bs| <= |ts|
  {
    if ts == [] then []
    else ComponentBoxes(info(ts[0]), c) + Boxes(ts[1..], info, c)
  }

  /** The boxes are exactly those of the components on the walked objects. */
  lemma {:induction false} BoxesMembers(ts: seq<Node>, info: Node -> NodeInfo, c: Component, b: Bounds)
    ensures b in Boxes(ts, info, c) <==> exists x :: x in ts && b in ComponentBoxes(info(x), c)
    decreases |ts|
  {
    if ts != [] {
      BoxesMembers(ts[1..], info, c, b);
      assert forall x :: x in ts <==> x == ts[0] || x in ts[1..];
    }
  }

  /**
   * The box `bounds` of the dimensions block for component `c`: the object's own box grown
   * over every box of that component in GetComponentsInChildren, or None without the component.
   */
  function Grown(n: Node, parent: Links, order: seq<Node>, ghost rank: map<Node, nat>, info: Node -> NodeInfo, c: Component): (g: Option<Bounds>)
    requires WellFormed(parent, order, rank) && n in parent
    ensures g.Some? <==> BoundsOf(info(n), c).Some?
  {
    match BoundsOf(info(n), c)
    case None => None
    case Some(b) => Some(EncapsulateAll(b, Boxes(Subtree(parent, order, rank, n), info, c)))
  }

  /**
   * The grown box is the smallest box that contains every box of the component on the object
   * and on every object below it.
   */
  lemma GrownEnclosesSubtree(n: Node, parent: Links, order: seq<Node>, rank: map<Node, nat>, info: Node -> NodeInfo, c: Component, outer: Bounds)
    requires WellFormed(parent, order, rank) && n in parent && BoundsOf(info(n), c).Some?
    ensures forall x, b :: x in Subtree(parent, order, rank, n) && b in ComponentBoxes(info(x), c) ==>
      Encloses(Grown(n, parent, order, rank, info, c).value, b)
    ensures (forall x, b :: x in Subtree(parent, order, rank, n) && b in ComponentBoxes(info(x), c) ==> Encloses(outer, b))
      ==> Encloses(outer, Grown(n, parent, order, rank, info, c).value)
  {
    var ts := Subtree(parent, order, rank, n);
    var own := BoundsOf(info(n), c).value;
    var bs := Boxes(ts, info, c);
    var g := EncapsulateAll(own, bs);
    forall x, b | x in ts && b in ComponentBoxes(info(x), c)
      ensures Encloses(g, b)
    {
      BoxesMembers(ts, info, c, b);
    }
    if forall x, b :: x in ts && b in ComponentBoxes(info(x), c) ==> Encloses(outer, b) {
      assert n in ts by { assert ts[0] == n; }
      assert own in ComponentBoxes(info(n), c);
      forall i | 0 <= i < |bs|
        ensures Encloses(outer, bs[i])
      {
        BoxesMembers(ts, info, c, bs[i]);
      }
      EncapsulateAllLeast(own, bs, outer);
    }
  }

  /**
   * The dimensions of a root `n`: the grown renderer box, or failing a renderer the grown
   * collider box, scaled by the local scale; zero (also with neither component) becomes (1,1,1).
   */
  function MultipleDimensions(n: Node, parent: Links, order: seq<Node>, ghost rank: map<Node, nat>, info: Node -> NodeInfo): (d: Vec3)
    requires WellFormed(parent, order, rank) && n in parent
    ensures d != Zero
    ensures info(n).renderer.None? && info(n).colliders == [] ==> d == One
    ensures info(n).renderer.Some? ==>
      d == OrUnit(Scale(Size(Grown(n, parent, order, rank, info, RendererComponent).value), info(n).localScale))
    ensures info(n).renderer.None? && info(n).colliders != [] ==>
      d == OrUnit(Scale(Size(Grown(n, parent, order, rank, info, ColliderComponent).value), info(n).localScale))
  {
    var o := info(n);
    var c := if o.renderer.Some? then RendererComponent else ColliderComponent;
    match Grown(n, parent, order, rank, info, c)
    case None => OrUnit(Zero)
    case Some(g) => OrUnit(Scale(Size(g), o.localScale))
  }

  /**
   * The entry for root `n`: X-flipped world position; the unguarded registration point of
   * its mesh (zero without a mesh); the dimensions above; "Model", or "Light" / "" for a
   * Light / a Camera; and the URL of the FBX file written for it.
   */
  function MultipleEntry(n: Node, parent: Links, order: seq<Node>, ghost rank: map<Node, nat>, info: Node -> NodeInfo,
                         dataPath: string, path: string): (e: MultipleRecord)
    requires WellFormed(parent, order, rank) && n in parent
    ensures e.position.x + info(n).position.x == 0.0
    ensures e.position.y == info(n).position.y && e.position.z == info(n).position.z
    ensures info(n).mesh.None? ==> e.registrationPoint == ZeroScalars
    ensures info(n).mesh.Some? ==> e.registrationPoint == UnguardedRegistration(info(n).mesh.value)
    ensures e.dimensions != Zero && e.dimensions == MultipleDimensions(n, parent, order, rank, info)
    ensures e.typeName == "Light" <==> info(n).light
    ensures e.typeName == "" <==> !info(n).light && info(n).camera
    ensures e.typeName == "Model" <==> !info(n).light && !info(n).camera
    ensures e.modelURL == "file:///" + ProjectDirectory(dataPath) + FbxFileName(path, info(n).name)
  {
    var o := info(n);
    MultipleRecord(
      MultipleType(o.light, o.camera),
      ModelUrl(dataPath, path, o.name),
      FlipX(o.position),
      if o.mesh.Some? then UnguardedRegistration(o.mesh.value) else ZeroScalars,
      MultipleDimensions(n, parent, order, rank, info))
  }

  /**
   * The serialized entry of every node of a well-formed scene, as JsonUtility.ToJson writes
   * it for a root. The lemmas about the manifest's shape hold for any entry function.
   */
  ghost function EntryOf(parent: Links, order: seq<Node>, rank: map<Node, nat>, info: Node -> NodeInfo,
                         dataPath: string, path: string, toJson: MultipleRecord -> string): (entry: Node -> string)
    ensures WellFormed(parent, order, rank) ==>
      forall n :: n in parent ==> entry(n) == toJson(MultipleEntry(n, parent, order, rank, info, dataPath, path))
  {
    n => if WellFormed(parent, order, rank) && n in parent then toJson(MultipleEntry(n, parent, order, rank, info, dataPath, path)) else ""
  }

  /** What the JSON loop emits for every object of the list: None for one that has a parent. */
  function MultipleItems(objs: seq<Node>, parent: Links, entry: Node -> string): (items: seq<Option<string>>)
    requires forall o :: o in objs ==> o in parent
    ensures |items| == |objs|
    ensures forall i :: 0 <= i < |objs| ==> items[i] == if parent[objs[i]].Some? then None else Some(entry(objs[i]))
  {
    seq(|objs|, i requires 0 <= i < |objs| => if parent[objs[i]].Some? then None else Some(entry(objs[i])))
  }

  /** The entries of `roots`, in order. */
  function RootEntries(roots: seq<Node>, entry: Node -> string): (parts: seq<string>)
    ensures |parts| == |roots|
    ensures forall i :: 0 <= i < |roots| ==> parts[i] == entry(roots[i])
  {
    seq(|roots|, i requires 0 <= i < |roots| => entry(roots[i]))
  }

  lemma RootEntriesSnoc(roots: seq<Node>, o: Node, entry: Node -> string)
    ensures RootEntries(roots + [o], entry) == RootEntries(roots, entry) + [entry(o)]
  {
  }

  /** One more object of the list: its entry joins the roots' entries exactly when it has no parent. */
  lemma RootEntriesStep(objs: seq<Node>, i: nat, parent: Links, entry: Node -> string)
    requires (forall x :: x in objs ==> x in parent) && i < |objs|
    ensures parent[objs[i]].Some? ==> RootEntries(Roots(objs[..i + 1], parent), entry) == RootEntries(Roots(objs[..i], parent), entry)
    ensures parent[objs[i]].None? ==>
      RootEntries(Roots(objs[..i + 1], parent), entry) == RootEntries(Roots(objs[..i], parent), entry) + [entry(objs[i])]
  {
    RootsStep(objs, i, parent);
    if parent[objs[i]].None? {
      RootEntriesSnoc(Roots(objs[..i], parent), objs[i], entry);
    }
  }

  /** The manifest lists exactly the objects without a parent, in list order. */
  lemma {:induction false} EmittedAreRoots(objs: seq<Node>, parent: Links, entry: Node -> string)
    requires forall o :: o in objs ==> o in parent
    ensures Present(MultipleItems(objs, parent, entry)) == RootEntries(Roots(objs, parent), entry)
    decreases |objs|
  {
    var items := MultipleItems(objs, parent, entry);
    if objs != [] {
      var init := objs[..|objs| - 1];
      var last := objs[|objs| - 1];
      assert items[..|items| - 1] == MultipleItems(init, parent, entry);
      EmittedAreRoots(init, parent, entry);
      if parent[last].None? {
        assert Roots(objs, parent) == Roots(init, parent) + [last];
        RootEntriesSnoc(Roots(init, parent), last, entry);
      } else {
        assert Roots(objs, parent) == Roots(init, parent) + [];
      }
    }
  }

  /**
   * EncapsulateAll by the `foreach (...) bounds.Encapsulate(...)` loop: `b` grown over
   * every box of `bs`, one after the other.
   */
  method EncloseAll(b: Bounds, bs: seq<Bounds>) returns (r: Bounds)
    ensures r == EncapsulateAll(b, bs)
  {
    r := b;
    var i := 0;
    while i < |bs|
      invariant 0 <= i <= |bs|
      invariant EncapsulateAll(r, bs[i..]) == EncapsulateAll(b, bs)
    {
      assert bs[i..][1..] == bs[i + 1..];
      r := Encapsulate(r, bs[i]);
      i := i + 1;
    }
  }

  /** The dimensions block of the JSON loop, with its Encapsulate loop. */
  method ComputeDimensions(n: Node, parent: Links, order: seq<Node>, ghost rank: map<Node, nat>, info: Node -> NodeInfo) returns (d: Vec3)
    requires WellFormed(parent, order, rank) && n in parent
    ensures d == MultipleDimensions(n, parent, order, rank, info)
  {
    var o := info(n);
    d := Zero;
    if o.renderer.Some? {
      var boxes := Boxes(Subtree(parent, order, rank, n), info, RendererComponent);
      var bounds := EncloseAll(o.renderer.value, boxes);
      d := Scale(Size(bounds), o.localScale);
    } else if o.colliders != [] {
      var boxes := Boxes(Subtree(parent, order, rank, n), info, ColliderComponent);
      var bounds := EncloseAll(o.colliders[0], boxes);
      d := Scale(Size(bounds), o.localScale);
    }
    if d == Zero {
      d := One;
    }
  }

  /**
   * ExportGameObjectAsJson: the StringBuilder loop skips an object that has a parent and
   * puts a comma after an entry whenever its index is not the last index of the list. The
   * text is stored in `jsonFile`, the answer of the file dialog; the result is None when
   * WriteAllText throws instead.
   */
  method ExportGameObjectAsJson(objs: seq<Node>, parent: Links, order: seq<Node>, ghost rank: map<Node, nat>, path: string,
                                info: Node -> NodeInfo, dataPath: string, jsonFile: string, toJson: MultipleRecord -> string)
    returns (json: Option<string>)
    requires WellFormed(parent, order, rank) && forall o :: o in objs ==> o in parent
    ensures WriteAllTextThrows(jsonFile) ==> json == None
    ensures !WriteAllTextThrows(jsonFile) ==>
      json == Some(Document(MultipleItems(objs, parent, EntryOf(parent, order, rank, info, dataPath, path, toJson))))
  {
    ghost var items := MultipleItems(objs, parent, EntryOf(parent, order, rank, info, dataPath, path, toJson));
    // The StringBuilder holds Open + body.
    var body := "";
    for i := 0 to |objs|
      invariant body == Body(items, i)
    {
      var obj := objs[i];
      BodySnoc(items, i);
      if parent[obj].Some? {
        continue;
      }
      var entry := Entry(obj, parent, order, rank, info, dataPath, path);
      var jsonString := toJson(entry);
      assert items[i] == Some(jsonString);
      body := body + jsonString;
      if i != |objs| - 1 {
        body := body + ",";
      }
    }
    if WriteAllTextThrows(jsonFile) {
      return None;
    }
    json := Some(Open + body + Close);
  }

  /** The body of the JSON loop for one root: the fields set one after the other. */
  method Entry(n: Node, parent: Links, order: seq<Node>, ghost rank: map<Node, nat>, info: Node -> NodeInfo,
               dataPath: string, path: string) returns (e: MultipleRecord)
    requires WellFormed(parent, order, rank) && n in parent
    ensures e == MultipleEntry(n, parent, order, rank, info, dataPath, path)
  {
    var o := info(n);
    var position := FlipX(o.position);
    var registrationPoint := ZeroScalars;
    if o.mesh.Some? {
      registrationPoint := UnguardedRegistration(o.mesh.value);
    }
    var dimensions := ComputeDimensions(n, parent, order, rank, info);
    var typeName := "Model";
    var modelURL := "file:///" + ProjectDirectory(dataPath) + path + "/" + o.name + ".fbx";
    if o.light {
      typeName := "Light";
    } else if o.camera {
      typeName := "";
    }
    e := MultipleRecord(typeName, modelURL, position, registrationPoint, dimensions);
  }

  /** When the last object of the list is a root (or the list is empty) the manifest is the roots' entries joined by commas. */
  lemma ManifestWhenLastIsRoot(objs: seq<Node>, parent: Links, entry: Node -> string)
    requires forall o :: o in objs ==> o in parent
    requires objs == [] || parent[objs[|objs| - 1]].None?
    ensures Document(MultipleItems(objs, parent, entry)) == Open + Join(RootEntries(Roots(objs, parent), entry)) + Close
  {
    EmittedAreRoots(objs, parent, entry);
    DocumentWhenLastEmitted(MultipleItems(objs, parent, entry));
  }

  /** When the last object has a parent and some other object is a root, the manifest ends in ",]}". */
  lemma ManifestWhenLastHasParent(objs: seq<Node>, parent: Links, entry: Node -> string)
    requires forall o :: o in objs ==> o in parent
    requires objs != [] && parent[objs[|objs| - 1]].Some? && Roots(objs, parent) != []
    ensures Document(MultipleItems(objs, parent, entry)) == Open + Join(RootEntries(Roots(objs, parent), entry)) + ",]}"
  {
    var items := MultipleItems(objs, parent, entry);
    EmittedAreRoots(objs, parent, entry);
    DocumentOfSkippedLast(items, RootEntries(Roots(objs, parent), entry));
  }

  /**
   * The evidently intended JSON text: the roots' entries are collected in list order and
   * joined with commas (string.Join), so no comma can follow the last one emitted.
   */
  method ExportGameObjectAsJsonCorrected(objs: seq<Node>, parent: Links, order: seq<Node>, ghost rank: map<Node, nat>, path: string,
                                         info: Node -> NodeInfo, dataPath: string, toJson: MultipleRecord -> string) returns (json: string)
    requires WellFormed(parent, order, rank) && forall o :: o in objs ==> o in parent
    ensures json == Open + Join(RootEntries(Roots(objs, parent), EntryOf(parent, order, rank, info, dataPath, path, toJson))) + Close
  {
    ghost var entryOf := EntryOf(parent, order, rank, info, dataPath, path, toJson);
    var entries: seq<string> := [];
    for i := 0 to |objs|
      invariant entries == RootEntries(Roots(objs[..i], parent), entryOf)
    {
      var obj := objs[i];
      RootEntriesStep(objs, i, parent, entryOf);
      if parent[obj].Some? {
        continue;
      }
      // The same entry as Entry builds, serialized.
      var jsonString := toJson(MultipleEntry(obj, parent, order, rank, info, dataPath, path));
      assert jsonString == entryOf(obj);
      entries := entries + [jsonString];
    }
    assert objs[..|objs|] == objs;
    json := Open + Join(entries) + Close;
  }

  /** ExportGameObject called with the resolved selection, in which no reference is null. */
  method ExportObjects(current: seq<Node>, parent: Links, info: Node -> NodeInfo, copyMaterials: bool, copyTextures: bool,
                       chosenFolder: string, exported: ExportCall -> bool)
    returns (path: Option<string>, calls: seq<ExportCall>, notices: seq<Notice>)
    requires forall o :: o in current ==> o in parent
    ensures var choice := GetNewPath(None, chosenFolder);
      && path == choice.path
      && calls == (if choice.path.None? then [] else ExportCalls(Roots(current, parent), choice.path.value, info, copyMaterials, copyTextures))
      && notices == choice.notices + FailureNotices(calls, exported)
  {
    path, calls, notices := ExportGameObject(AllSome(current), parent, info, copyMaterials, copyTextures, None, chosenFolder, exported);
    assert NoneNull(AllSome(current));
    assert Deref(AllSome(current)) == current;
  }

  /**
   * ExportCurrentGameObject, after the selection has been resolved to `current`: export,
   * then, when a folder was chosen, the manifest and the success dialog, which counts every
   * selected object, children included. A cancelled JSON file dialog makes WriteAllText
   * throw, and the exception skips the dialog.
   */
  method ExportCurrentGameObject(current: seq<Node>, parent: Links, order: seq<Node>, ghost rank: map<Node, nat>,
                                 copyMaterials: bool, copyTextures: bool, chosenFolder: string, exported: ExportCall -> bool,
                                 info: Node -> NodeInfo, dataPath: string, jsonFile: string, toJson: MultipleRecord -> string)
    returns (calls: seq<ExportCall>, notices: seq<Notice>, json: Option<string>)
    requires WellFormed(parent, order, rank) && forall o :: o in current ==> o in parent
    ensures var choice := GetNewPath(None, chosenFolder);
      && calls == (if choice.path.None? then [] else ExportCalls(Roots(current, parent), choice.path.value, info, copyMaterials, copyTextures))
      && notices == choice.notices + FailureNotices(calls, exported)
                    + (if choice.path.None? || WriteAllTextThrows(jsonFile) then [] else [Success(|current|)])
      && json == if choice.path.None? || WriteAllTextThrows(jsonFile) then None
                 else Some(Document(MultipleItems(current, parent, EntryOf(parent, order, rank, info, dataPath, choice.path.value, toJson))))
  {
    var path;
    path, calls, notices := ExportObjects(current, parent, info, copyMaterials, copyTextures, chosenFolder, exported);
    if path.None? {
      json := None;
      return;
    }
    json := ExportGameObjectAsJson(current, parent, order, rank, path.value, info, dataPath, jsonFile, toJson);
    if json.None? {
      return;
    }
    notices := notices + [Success(|current|)];
  }

  /** A scene of two objects: A (0), a root, and its child B (1), both selected in that order. */
  lemma TwoObjectScene()
    ensures WellFormed(map[0 := None, 1 := Some(0)], [0, 1], map[0 := 1, 1 := 0])
    ensures Subtree(map[0 := None, 1 := Some(0)], [0, 1], map[0 := 1, 1 := 0], 0) == [0, 1]
  {
    var links: Links := map[0 := None, 1 := Some(0)];
    var order: seq<Node> := [0, 1];
    var rank := map[0 := 1, 1 := 0];
    assert order[1..][1..] == [];
    assert Children(links, order, 1) == [];
    assert Children(links, order, 0) == [1];
    assert Subtree(links, order, rank, 1) == [1];
  }

  /**
   * Exporting A and B: B has a parent, so only A is listed, and because B comes last the
   * manifest as written is "{"Entities":[<A>,]}"; the corrected loop writes "{"Entities":[<A>]}".
   */
  lemma TwoObjectManifest(entry: Node -> string)
    ensures var links: Links := map[0 := None, 1 := Some(0)];
      && Document(MultipleItems([0, 1], links, entry)) == Open + entry(0) + ",]}"
      && Open + Join(RootEntries(Roots([0, 1], links), entry)) + Close == Open + entry(0) + Close
  {
    var links: Links := map[0 := None, 1 := Some(0)];
    var objs: seq<Node> := [0, 1];
    assert Roots(objs, links) == [0] by {
      assert objs[..1] == [0] && objs[..1][..0] == [];
    }
    assert Join(RootEntries([0], entry)) == entry(0) by {
      assert RootEntries([0], entry) == [entry(0)];
    }
    ManifestWhenLastHasParent(objs, links, entry);
  }

  /**
   * A's renderer spans (-1,-1,-1)..(1,1,1) and B's (0,0,0)..(3,3,3): A's dimensions enclose
   * its child's renderer too and come out as (4,4,4) at unit scale.
   */
  lemma ChildRendererGrowsDimensions(info: Node -> NodeInfo)
    requires info(0).renderer == Some(Bounds(Vec3(-1.0, -1.0, -1.0), Vec3(1.0, 1.0, 1.0))) && info(0).localScale == One
    requires info(1).renderer == Some(Bounds(Zero, Vec3(3.0, 3.0, 3.0)))
    ensures WellFormed(map[0 := None, 1 := Some(0)], [0, 1], map[0 := 1, 1 := 0])
    ensures MultipleDimensions(0, map[0 := None, 1 := Some(0)], [0, 1], map[0 := 1, 1 := 0], info) == Vec3(4.0, 4.0, 4.0)
  {
    var links: Links := map[0 := None, 1 := Some(0)];
    var rank := map[0 := 1, 1 := 0];
    TwoObjectScene();
    var a := Bounds(Vec3(-1.0, -1.0, -1.0), Vec3(1.0, 1.0, 1.0));
    var b := Bounds(Zero, Vec3(3.0, 3.0, 3.0));
    var grown := Bounds(Vec3(-1.0, -1.0, -1.0), Vec3(3.0, 3.0, 3.0));
    assert Boxes([0, 1], info, RendererComponent) == [a, b] by {
      assert [0, 1][1..] == [1] && [1][1..] == [];
    }
    GrowOverTwoBoxes();
    assert Size(grown) == Vec3(4.0, 4.0, 4.0);
  }

  /**
   * A has no renderer but two colliders, (-1,-1,-1)..(1,1,1) and (0,0,0)..(3,3,3), and B has
   * none: GetComponentsInChildren<Collider>() finds both of A's, so its dimensions are (4,4,4).
   */
  lemma SecondColliderGrowsDimensions(info: Node -> NodeInfo)
    requires info(0).renderer == None && info(0).localScale == One && info(1).colliders == []
    requires info(0).colliders == [Bounds(Vec3(-1.0, -1.0, -1.0), Vec3(1.0, 1.0, 1.0)), Bounds(Zero, Vec3(3.0, 3.0, 3.0))]
    ensures WellFormed(map[0 := None, 1 := Some(0)], [0, 1], map[0 := 1, 1 := 0])
    ensures MultipleDimensions(0, map[0 := None, 1 := Some(0)], [0, 1], map[0 := 1, 1 := 0], info) == Vec3(4.0, 4.0, 4.0)
  {
    var links: Links := map[0 := None, 1 := Some(0)];
    var rank := map[0 := 1, 1 := 0];
    TwoObjectScene();
    var grown := Bounds(Vec3(-1.0, -1.0, -1.0), Vec3(3.0, 3.0, 3.0));
    assert Boxes([0, 1], info, ColliderComponent) == info(0).colliders by {
      assert [0, 1][1..] == [1] && [1][1..] == [];
    }
    GrowOverTwoBoxes();
    assert Size(grown) == Vec3(4.0, 4.0, 4.0);
  }
}
