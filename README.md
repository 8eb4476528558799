# FBX exporter menus: a verified model

This project models the two editor commands of the Unity FBX exporter package that turn
selected GameObjects into FBX files plus a JSON manifest (`{"Entities":[...]}`) of their
placement:

- **ExporterMenuSeparate** splits each selected object into as many FBX files as it has
  objects.
  - It walks the selected subtree depth first (`UnparentChildRecursive`).
  - It records each object's parent in the static `childParentMapping` dictionary, then
    detaches the object from that parent.
  - It exports every key of the mapping as its own file.
  - Each manifest entry carries a numeric id for the object and the id of its original
    parent.
  - Finally, every object gets its recorded parent back and the mapping is cleared.
- **ExportMenuMultiple** leaves the scene alone.
  - It writes one FBX file per selected object that has no parent. A root's file carries
    its children.
  - Only those roots are listed in the manifest. Each entry's dimensions are grown over the
    renderer boxes of the whole subtree, or else over all of its colliders.

Both commands share these parts:

- the folder choice `GetNewPath`: the folder must contain "/Assets" and is cut down to the
  first "Assets";
- the file name "<folder>/<name>.fbx";
- the `modelURL` "file:///" + `dataPath.Replace("Assets", "")` + file name;
- the coordinate conversion (X changes sign);
- the registration point;
- the "dimensions are never zero" rule;
- the Light / Camera / Model classification.

## Layout

| File | Module | What it holds |
|---|---|---|
| `wrappers.dfy` | `Wrappers` | `Option` |
| `editor.dfy` | `Editor` | the dialogs shown (`Notice`), the calls into the native FBX writer (`ExportCall`), and the file name on which `WriteAllText` throws |
| `geometry.dfy` | `Geometry` | `Vector3` and `Bounds` over reals; `Encapsulate`; the guarded and unguarded registration point |
| `hierarchy.dfy` | `Hierarchy` | the scene as a forest of `transform.parent` links.<br>`WellFormed` means acyclic, witnessed by a ghost rank.<br>`Subtree` is the preorder walk of `GetComponentsInChildren<Transform>()`.<br>`Scene` is the class whose `parent` field the separate exporter changes in place. |
| `paths.dfy` | `Paths` | `IndexOf`, `Contains`, `Replace`, `GetNewPath`, file names, model URLs |
| `manifest.dfy` | `Manifest` | the host data read per object (`NodeInfo`); classification; the writer calls and failure warnings of the export loops |
| `json.dfy` | `JsonText` | the StringBuilder loop's output (`Document`) against the comma-joined list (`Join`) |
| `separate.dfy` | `ExporterMenuSeparate` | `ChildParentMapping` (a class); detach, export, manifest and re-parent as methods over `Scene` |
| `multiple.dfy` | `ExporterMenuMultiple` | root filtering, grown dimensions, the export and manifest methods |

## Host inputs

Everything the commands get from the editor host is a parameter:

| Parameter | Stands for |
|---|---|
| `chosenFolder` | what `SaveFolderPanel` returned (the empty string when cancelled) |
| `exported` | the success flag `FBXExporter.ExportGameObjToFBX` returns for a call |
| `info` | what is read from a GameObject: name, position, local scale, the bounds of its mesh and of its renderer, the bounds of each of its colliders, and whether it has a Light or a Camera. The separate command reads it after the detach phase, so `localScale` is the value Unity recomputed when the object's parent link was cut; the model takes that value as given. |
| `jsonFile` | what `SaveFilePanelInProject` returned for the manifest (the empty string when cancelled) |
| `dataPath` | `Application.dataPath` |
| `fmt` | `convertIDToString` |
| `toJson` | `JsonUtility.ToJson` |

A selection has already been resolved to a list `current` of scene objects.

## Model

All paths are under `Assets/Packages/UnityFBXExporter/Editor/`.

| member | source | states |
|---|---|---|
| Geometry.FlipX | Assets/Packages/UnityFBXExporter/Editor/ExporterMenuSeparate.cs:253-254 | The manifest position is the world position with X negated; Y and Z are kept. |
| Geometry.Scale | Assets/Packages/UnityFBXExporter/Editor/ExporterMenuSeparate.cs:276 | `Vector3.Scale` by the unit scale leaves a vector unchanged. The product is zero exactly when, on every axis, the size or the scale is zero. |
| Geometry.Size | Assets/Packages/UnityFBXExporter/Editor/ExporterMenuSeparate.cs:275 | `Bounds.size`: on each axis `max` is `min` moved by the size. The size is zero exactly when the two corners coincide. |
| Geometry.Encapsulate | Assets/Packages/UnityFBXExporter/Editor/ExportMenuMultiple.cs:209 | `Bounds.Encapsulate` gives a box that encloses both boxes. |
| Geometry.EncapsulateLeast | Assets/Packages/UnityFBXExporter/Editor/ExportMenuMultiple.cs:209 | Any box that encloses both boxes encloses their encapsulation, so it is the smallest. |
| Geometry.EncapsulateAll | Assets/Packages/UnityFBXExporter/Editor/ExportMenuMultiple.cs:208-210 | Growing a box over a list of boxes encloses the start box and every box in the list. |
| Geometry.EncapsulateAllLeast | Assets/Packages/UnityFBXExporter/Editor/ExportMenuMultiple.cs:208-210 | The grown box is the smallest box enclosing the start box and all listed boxes. |
| Geometry.GrowOverTwoBoxes | Assets/Packages/UnityFBXExporter/Editor/ExportMenuMultiple.cs:205-210 | A concrete growth: (-1,-1,-1)..(1,1,1) over itself and (0,0,0)..(3,3,3) gives (-1,-1,-1)..(3,3,3). |
| Geometry.OrUnit | Assets/Packages/UnityFBXExporter/Editor/ExporterMenuSeparate.cs:278-281 | Dimensions are never zero: the zero vector becomes (1,1,1) and any other vector is kept unchanged. |
| Geometry.RegistrationAxis | Assets/Packages/UnityFBXExporter/Editor/ExporterMenuSeparate.cs:262-264 | Guarded axis: 0 for a box of no extent; otherwise the value r with r·size = −min. |
| Geometry.Registration | Assets/Packages/UnityFBXExporter/Editor/ExporterMenuSeparate.cs:257-265 | The separate exporter's registration point, stated axis by axis as above. |
| Geometry.RegistrationAxisNormalized | Assets/Packages/UnityFBXExporter/Editor/ExporterMenuSeparate.cs:262 | If the pivot lies inside a box of positive extent, the registration axis is in [0, 1]. |
| Geometry.UnguardedRegistrationAxis | Assets/Packages/UnityFBXExporter/Editor/ExportMenuMultiple.cs:199 | The multiple exporter's axis has no zero test: finite exactly when size ≠ 0, and then equal to the guarded value. |
| Geometry.UnguardedRegistration | Assets/Packages/UnityFBXExporter/Editor/ExportMenuMultiple.cs:195-202 | Each axis is finite exactly when the box has extent on it; when all three are finite the point equals the guarded one. |
| Geometry.FlatMeshRegistration | Assets/Packages/UnityFBXExporter/Editor/ExportMenuMultiple.cs:199-201 | A flat mesh (a Plane, with no Y extent) gets a non-finite Y from the unguarded rule and (0.5, 0, 0.5) from the guarded one. |
| Hierarchy.Children | Assets/Packages/UnityFBXExporter/Editor/ExporterMenuSeparate.cs:60 | The children listed are exactly the scene objects whose parent is the node. |
| Hierarchy.Subtree | Assets/Packages/UnityFBXExporter/Editor/ExporterMenuSeparate.cs:60 | `GetComponentsInChildren<Transform>()` starts with the node itself; every later element is a scene object of strictly lower rank. |
| Hierarchy.Descendants | Assets/Packages/UnityFBXExporter/Editor/ExporterMenuSeparate.cs:60 | The walks below each child of the node, one after the other, as `GetComponentsInChildren<Transform>()` continues after the node itself (also ExportMenuMultiple.cs line 216); every element found is a scene object of rank below the bound. |
| Hierarchy.InDescendants | Assets/Packages/UnityFBXExporter/Editor/ExporterMenuSeparate.cs:60 | A node lies in the concatenated subtrees of a list exactly when it lies in the subtree of one list element. |
| Hierarchy.InSubtree | Assets/Packages/UnityFBXExporter/Editor/ExporterMenuSeparate.cs:60 | A node is in a subtree exactly when it is the root or lies in the subtree of one of the root's children. |
| Hierarchy.SubtreeTransitive | Assets/Packages/UnityFBXExporter/Editor/ExporterMenuSeparate.cs:60 | The subtree of any member of a subtree is contained in that subtree. |
| Hierarchy.SubtreeAfterCuts | Assets/Packages/UnityFBXExporter/Editor/ExporterMenuSeparate.cs:75 | Setting parent links to null (line 75) can only shrink a subtree. |
| Hierarchy.SubtreeBeforeCuts | Assets/Packages/UnityFBXExporter/Editor/ExporterMenuSeparate.cs:75 | A node that has left a subtree hangs below some strict descendant whose link was cut. |
| Hierarchy.Scene.constructor | Assets/Packages/UnityFBXExporter/Editor/ExporterMenuSeparate.cs:60-61 | The scene starts with the given well-formed links. |
| Paths.IndexFrom | Assets/Packages/UnityFBXExporter/Editor/ExporterMenuSeparate.cs:222 | Returns the first occurrence at or after the start position, or −1 when there is none from there on. |
| Paths.IndexOf | Assets/Packages/UnityFBXExporter/Editor/ExporterMenuSeparate.cs:222 | `IndexOf` is −1 exactly when there is no occurrence; otherwise it is the first occurrence. |
| Paths.Contains | Assets/Packages/UnityFBXExporter/Editor/ExporterMenuSeparate.cs:206 | `Contains` holds exactly when the pattern occurs somewhere in the string. |
| Paths.GetNewPath | Assets/Packages/UnityFBXExporter/Editor/ExporterMenuSeparate.cs:198-231 | A warning appears exactly when there is no old path and "/Assets" is missing. A folder is returned exactly when that check passes and "Assets" occurs. The folder is the suffix of the chosen path that starts at the first "Assets". |
| Paths.SlashAssetsContainsAssets | Assets/Packages/UnityFBXExporter/Editor/ExporterMenuSeparate.cs:206-225 | Passing the "/Assets" check implies that the "Assets" search succeeds. |
| Paths.AssetsFolderRequired | Assets/Packages/UnityFBXExporter/Editor/ExportMenuMultiple.cs:149-171 | Without an old path a folder is accepted exactly when it contains "/Assets", and the result is the text from the first "Assets" on. |
| Paths.Replace | Assets/Packages/UnityFBXExporter/Editor/ExporterMenuSeparate.cs:306 | `String.Replace` leaves a string without the pattern unchanged, and never lengthens a string when the replacement is no longer than the pattern. |
| Paths.ProjectDirectory | Assets/Packages/UnityFBXExporter/Editor/ExporterMenuSeparate.cs:306 | The project directory is never longer than the data path, and a data path without "Assets" is kept as it is. |
| Paths.ProjectDirectoryOfDataPath | Assets/Packages/UnityFBXExporter/Editor/ExporterMenuSeparate.cs:306 | For the data path "<project>/Assets", with no "Assets" inside <project>, the directory is "<project>/". |
| Paths.StripAssetsFolder | Assets/Packages/UnityFBXExporter/Editor/ExportMenuMultiple.cs:237 | Corrected directory: always a prefix of the data path. |
| Paths.StripAssetsFolderOfDataPath | Assets/Packages/UnityFBXExporter/Editor/ExportMenuMultiple.cs:237 | Corrected directory: every data path "<project>/Assets" gives "<project>/". |
| Paths.ProjectDirectoryStripsEveryAssets | Assets/Packages/UnityFBXExporter/Editor/ExporterMenuSeparate.cs:306 | As written, "/xAssets/Assets" yields "/x/" instead of "/xAssets/". |
| Paths.FbxFileName | Assets/Packages/UnityFBXExporter/Editor/ExporterMenuSeparate.cs:179 | The file name begins with the folder and a '/', continues with the object's name and ends in ".fbx". |
| Paths.ModelUrl | Assets/Packages/UnityFBXExporter/Editor/ExporterMenuSeparate.cs:306-307 | `modelURL` is "file:///", then the project directory, then the name of the FBX file written for the object. |
| Paths.ModelUrlNamesExportedFile | Assets/Packages/UnityFBXExporter/Editor/ExportMenuMultiple.cs:237-238 | For the usual data path, `modelURL` is the file URI of exactly the FBX file that was written. |
| Editor.WriteAllTextThrows | Assets/Packages/UnityFBXExporter/Editor/ExporterMenuSeparate.cs:317 | `File.WriteAllText` throws exactly on the empty file name, which is what `SaveFilePanelInProject` (line 244) returns when its dialog is cancelled; the same holds at ExportMenuMultiple.cs lines 178 and 264. |
| Manifest.SeparateClassification | Assets/Packages/UnityFBXExporter/Editor/ExporterMenuSeparate.cs:285-292 | The type is "Light" iff the object has a Light; "" iff it has a Camera and no Light; "Model" otherwise. The "compound" shape is set iff the type is Model. |
| Manifest.NoneNull | Assets/Packages/UnityFBXExporter/Editor/ExporterMenuSeparate.cs:163-170 | The null test over the selection passes exactly when no reference in it is null (the same loop is at ExportMenuMultiple.cs lines 110-117). |
| Manifest.MultipleType | Assets/Packages/UnityFBXExporter/Editor/ExportMenuMultiple.cs:236-244 | The default-then-override order gives the same type as the separate exporter's if/else chain. |
| Manifest.Deref | Assets/Packages/UnityFBXExporter/Editor/ExporterMenuSeparate.cs:177 | Dereferencing non-null references gives back the objects in order. |
| Manifest.ExportCalls | Assets/Packages/UnityFBXExporter/Editor/ExporterMenuSeparate.cs:177-188 | One writer call per object, in order, to "<folder>/<name>.fbx", with the same copy flags. |
| Manifest.FailureNotices | Assets/Packages/UnityFBXExporter/Editor/ExporterMenuSeparate.cs:182-186 | Each notice is a failure warning, and there are exactly as many as calls that failed. There are none exactly when every call succeeded. |
| Manifest.ExportCallsSnoc | Assets/Packages/UnityFBXExporter/Editor/ExporterMenuSeparate.cs:177-188 | One more object adds exactly its own call at the end. |
| Manifest.FailureNoticesSnoc | Assets/Packages/UnityFBXExporter/Editor/ExporterMenuSeparate.cs:183-186 | One more call adds a warning exactly when that call fails. |
| JsonText.Piece | Assets/Packages/UnityFBXExporter/Editor/ExportMenuMultiple.cs:258-261 | For a skipped object the loop appends nothing. For an emitted one it appends the entry, and a comma follows exactly when the index is not the last index of the whole list. |
| JsonText.Body | Assets/Packages/UnityFBXExporter/Editor/ExportMenuMultiple.cs:182-261 | No contract of its own: JsonText.BodyBeforeLast, JsonText.AsWrittenBody and JsonText.BodySnoc state what the builder holds. |
| JsonText.Document | Assets/Packages/UnityFBXExporter/Editor/ExportMenuMultiple.cs:180-263 | The text written begins with `{"Entities":[` and ends with `]}`. |
| JsonText.Present | Assets/Packages/UnityFBXExporter/Editor/ExportMenuMultiple.cs:185-187 | At most one entry per item, and an entry is emitted exactly when some item carries it. |
| JsonText.Join | Assets/Packages/UnityFBXExporter/Editor/ExporterMenuSeparate.cs:310-313 | A comma-joined list begins with its first entry. |
| JsonText.JoinEndsWithLast | Assets/Packages/UnityFBXExporter/Editor/ExporterMenuSeparate.cs:310-316 | A comma-joined list ends with its last entry: no comma follows it. |
| JsonText.Terminated | Assets/Packages/UnityFBXExporter/Editor/ExportMenuMultiple.cs:258-261 | A list whose every entry carries a comma ends with a comma. |
| JsonText.CorrectedDocument | Assets/Packages/UnityFBXExporter/Editor/ExportMenuMultiple.cs:180-263 | The intended text also has the envelope, and with nothing emitted it is `{"Entities":[]}`. |
| JsonText.TerminatedIsJoinComma | Assets/Packages/UnityFBXExporter/Editor/ExportMenuMultiple.cs:257-262 | Entries that each carry a comma equal the comma-joined list followed by one comma. |
| JsonText.JoinSnoc | Assets/Packages/UnityFBXExporter/Editor/ExporterMenuSeparate.cs:309-314 | Joining one more entry equals every earlier entry with its own comma, then the new one. |
| JsonText.BodyBeforeLast | Assets/Packages/UnityFBXExporter/Editor/ExportMenuMultiple.cs:257-262 | Before the last index, every emitted entry has been followed by a comma. |
| JsonText.AsWrittenBody | Assets/Packages/UnityFBXExporter/Editor/ExportMenuMultiple.cs:182-263 | The loop writes exactly the comma-joined emitted entries, except when the last object is skipped: then every entry carries a comma. |
| JsonText.BodyLastSkipped | Assets/Packages/UnityFBXExporter/Editor/ExportMenuMultiple.cs:185-187 | Last object skipped: every emitted entry, the last included, is followed by a comma. |
| JsonText.BodyLastEmitted | Assets/Packages/UnityFBXExporter/Editor/ExportMenuMultiple.cs:257-262 | Last object emitted: the body is the comma-joined list. |
| JsonText.DocumentWhenLastEmitted | Assets/Packages/UnityFBXExporter/Editor/ExportMenuMultiple.cs:180-263 | If the last object is emitted, or the list is empty, the document is the intended valid one. |
| JsonText.DocumentWhenLastSkipped | Assets/Packages/UnityFBXExporter/Editor/ExportMenuMultiple.cs:180-263 | If the last object is skipped and some entry was emitted, the document ends in ",]}". |
| JsonText.DocumentOfSkippedLast | Assets/Packages/UnityFBXExporter/Editor/ExportMenuMultiple.cs:180-263 | The same as DocumentWhenLastSkipped, for emitted entries already known. |
| JsonText.TrailingCommaExample | Assets/Packages/UnityFBXExporter/Editor/ExportMenuMultiple.cs:185-187 | One entry followed by one skipped object gives `{"Entities":[<entry>,]}`; the corrected text has no comma. |
| JsonText.BodySnoc | Assets/Packages/UnityFBXExporter/Editor/ExportMenuMultiple.cs:185-261 | One turn of the loop: a skipped object appends nothing; an emitted one appends its entry, plus a comma unless its index is the last. |
| Wrappers.AllSome | Assets/Packages/UnityFBXExporter/Editor/ExporterMenuSeparate.cs:131-135 | Element i of the result is `Some` of element i of the input: the non-null references passed to ExportGameObject, or the items of a loop that skips nothing (separate lines 248-315). |
| JsonText.PresentOfAllPresent | Assets/Packages/UnityFBXExporter/Editor/ExporterMenuSeparate.cs:248-315 | With nothing skipped, the emitted entries are exactly the list. |
| JsonText.DocumentOfAllPresent | Assets/Packages/UnityFBXExporter/Editor/ExporterMenuSeparate.cs:246-316 | With nothing skipped, the document is the envelope around the comma-joined entries, which is valid. |
| JsonText.BodyStep | Assets/Packages/UnityFBXExporter/Editor/ExporterMenuSeparate.cs:309-314 | One turn of the separate loop: the entry is appended, plus a comma unless it is the last. |
| ExporterMenuSeparate.ChildParentMapping.constructor | Assets/Packages/UnityFBXExporter/Editor/ExporterMenuSeparate.cs:12 | The mapping starts empty. |
| ExporterMenuSeparate.ChildParentMapping.ContainsKey | Assets/Packages/UnityFBXExporter/Editor/ExporterMenuSeparate.cs:71 | On a valid mapping, `Dictionary.ContainsKey` holds exactly when the object is one of the recorded keys (also the guard at line 125). |
| ExporterMenuSeparate.ChildParentMapping.Add | Assets/Packages/UnityFBXExporter/Editor/ExporterMenuSeparate.cs:73 | `Dictionary.Add` of a new key records its parent and appends the key to the enumeration order; keys stay distinct. |
| ExporterMenuSeparate.ChildParentMapping.Clear | Assets/Packages/UnityFBXExporter/Editor/ExporterMenuSeparate.cs:150 | After `Clear` there are no records and no keys. |
| ExporterMenuSeparate.AddIfAbsent | Assets/Packages/UnityFBXExporter/Editor/ExporterMenuSeparate.cs:71-74 | The first record of a key wins: the keys grow by the object, earlier records are kept, and a new key is recorded with its current parent. |
| ExporterMenuSeparate.UnparentChildRecursive | Assets/Packages/UnityFBXExporter/Editor/ExporterMenuSeparate.cs:56-79 | See note 1 below the table. |
| ExporterMenuSeparate.DetachDescendant | Assets/Packages/UnityFBXExporter/Editor/ExporterMenuSeparate.cs:71-76 | The loop body for one child: its parent is recorded if not yet a key, then its link is cut, then the recursion leaves its subtree flat and recorded. |
| ExporterMenuSeparate.RestoreFits | Assets/Packages/UnityFBXExporter/Editor/ExporterMenuSeparate.cs:146-147 | Giving a key back its recorded parent keeps the forest acyclic. |
| ExporterMenuSeparate.RestoreStep | Assets/Packages/UnityFBXExporter/Editor/ExporterMenuSeparate.cs:145-148 | One re-parent turn: the next key gets its recorded parent, and the forest stays well formed. |
| ExporterMenuSeparate.Reparent | Assets/Packages/UnityFBXExporter/Editor/ExporterMenuSeparate.cs:144-150 | Every key gets its recorded parent back; every other object keeps its link; the mapping is emptied. |
| ExporterMenuSeparate.Ids | Assets/Packages/UnityFBXExporter/Editor/ExporterMenuSeparate.cs:237-243 | `objectToIDMapping` numbers exactly the keys, with ids in 2 .. count+1. |
| ExporterMenuSeparate.IdsDistinct | Assets/Packages/UnityFBXExporter/Editor/ExporterMenuSeparate.cs:238-242 | No two objects share an id. |
| ExporterMenuSeparate.IdsConsecutive | Assets/Packages/UnityFBXExporter/Editor/ExporterMenuSeparate.cs:238-242 | Over distinct keys, the i-th key has id i+2 and there is one id per key. |
| ExporterMenuSeparate.IdsStep | Assets/Packages/UnityFBXExporter/Editor/ExporterMenuSeparate.cs:240-242 | One turn of the id loop: a new key gets the next number; a repeated one is left alone. |
| ExporterMenuSeparate.NumberKeys | Assets/Packages/UnityFBXExporter/Editor/ExporterMenuSeparate.cs:237-243 | The id loop yields `Ids(keys)`. |
| ExporterMenuSeparate.ParentNumber | Assets/Packages/UnityFBXExporter/Editor/ExporterMenuSeparate.cs:297-302 | A recorded parent that has an id gives that id. When no id is 0, the number is 0 exactly when the recorded parent is null or has no id. |
| ExporterMenuSeparate.ParentResolution | Assets/Packages/UnityFBXExporter/Editor/ExporterMenuSeparate.cs:297-302 | `parentID` is 0 exactly when the recorded parent is null or not a key; otherwise it is the parent's id, which is at least 2. |
| ExporterMenuSeparate.FormattedIds | Assets/Packages/UnityFBXExporter/Editor/ExporterMenuSeparate.cs:52-54 | With an injective formatter, formatted ids are distinct and never equal the sentinel. `parentID` is the sentinel exactly when the parent is absent from the mapping. |
| ExporterMenuSeparate.SeparateEntry | Assets/Packages/UnityFBXExporter/Editor/ExporterMenuSeparate.cs:250-307 | See note 2 below the table. |
| ExporterMenuSeparate.SeparateJsons | Assets/Packages/UnityFBXExporter/Editor/ExporterMenuSeparate.cs:248-309 | The i-th serialized entry is the `ToJson` of the i-th object's entry. |
| ExporterMenuSeparate.WriteEntries | Assets/Packages/UnityFBXExporter/Editor/ExporterMenuSeparate.cs:246-316 | The StringBuilder loop's text is the envelope around every entry, joined by commas. |
| ExporterMenuSeparate.ExportGameObjectAsJson | Assets/Packages/UnityFBXExporter/Editor/ExporterMenuSeparate.cs:233-317 | An empty JSON file name makes `WriteAllText` throw and nothing is written. Otherwise the file gets the envelope around every entry joined by commas, with ids `Ids(keys)`. |
| ExporterMenuSeparate.ExportGameObject | Assets/Packages/UnityFBXExporter/Editor/ExporterMenuSeparate.cs:161-190 | A null reference makes no calls and shows exactly one "Object is null" warning. Otherwise it returns `GetNewPath`'s folder, makes one writer call per object and shows one warning per failure. |
| ExporterMenuSeparate.WriteFbxFiles | Assets/Packages/UnityFBXExporter/Editor/ExporterMenuSeparate.cs:177-188 | The calls are `ExportCalls` of the list; the warnings are `FailureNotices` of those calls. |
| ExporterMenuSeparate.RecordSelected | Assets/Packages/UnityFBXExporter/Editor/ExporterMenuSeparate.cs:125-128 | A selected object is recorded with its parent at that moment, unless it is already a key. |
| ExporterMenuSeparate.DetachSelection | Assets/Packages/UnityFBXExporter/Editor/ExporterMenuSeparate.cs:123-129 | See note 3 below the table. |
| ExporterMenuSeparate.Merged | Assets/Packages/UnityFBXExporter/Editor/ExporterMenuSeparate.cs:123-133 | The records after the detach phase cover exactly the collected keys. |
| ExporterMenuSeparate.SelectionOutcome | Assets/Packages/UnityFBXExporter/Editor/ExporterMenuSeparate.cs:123-133 | See note 4 below the table. |
| ExporterMenuSeparate.DetachAndCollect | Assets/Packages/UnityFBXExporter/Editor/ExporterMenuSeparate.cs:123-133 | `separatedGameObjects` lists the mapping's keys in insertion order. They are distinct: the earlier keys plus the selected original subtrees. The scene is `Flattened`. |
| ExporterMenuSeparate.FinishExport | Assets/Packages/UnityFBXExporter/Editor/ExporterMenuSeparate.cs:140-150 | The manifest is taken over the records; then every key is restored and the mapping is cleared. If `WriteAllText` throws, the scene and the mapping are left as they were. |
| ExporterMenuSeparate.RestoredFromMerged | Assets/Packages/UnityFBXExporter/Editor/ExporterMenuSeparate.cs:144-148 | Re-parenting flattened links from the detach records restores every link of the starting scene. The only exception is objects already recorded before the command. |
| ExporterMenuSeparate.RestoredExactly | Assets/Packages/UnityFBXExporter/Editor/ExporterMenuSeparate.cs:144-150 | Starting from an empty mapping, the scene ends exactly as it began. |
| ExporterMenuSeparate.ExportCurrentGameObject | Assets/Packages/UnityFBXExporter/Editor/ExporterMenuSeparate.cs:123-150 | See note 5 below the table. |
| ExporterMenuSeparate.ExportCurrentGameObjectRestoring | Assets/Packages/UnityFBXExporter/Editor/ExporterMenuSeparate.cs:135-150 | Corrected command: on every outcome, a thrown `WriteAllText` included, the links are restored and the mapping is cleared. From an empty mapping the scene is unchanged. Same exports, dialogs and manifest as the as-written command. |
| ExporterMenuSeparate.TwoObjectScene | Assets/Packages/UnityFBXExporter/Editor/ExporterMenuSeparate.cs:60 | A root A with a child B is a well-formed scene, and B is in A's subtree. |
| ExporterMenuSeparate.CancelledFolder | Assets/Packages/UnityFBXExporter/Editor/ExporterMenuSeparate.cs:205-210 | A cancelled dialog (the empty string) is rejected. |
| ExporterMenuSeparate.CancelledExportLeavesChildDetached | Assets/Packages/UnityFBXExporter/Editor/ExporterMenuSeparate.cs:135-137 | As written, if A is exported and the folder dialog is cancelled, B is left without a parent. |
| ExporterMenuSeparate.CancelledExportRestoringKeepsParent | Assets/Packages/UnityFBXExporter/Editor/ExporterMenuSeparate.cs:135-150 | With the corrected command, in the same run B gets A back as its parent. |
| ExporterMenuSeparate.ChosenAssetsFolder | Assets/Packages/UnityFBXExporter/Editor/ExporterMenuSeparate.cs:205-225 | A folder inside the assets folder is accepted. |
| ExporterMenuSeparate.CancelledJsonLeavesChildDetached | Assets/Packages/UnityFBXExporter/Editor/ExporterMenuSeparate.cs:244-317 | As written, if A is exported into a folder and the JSON file dialog is cancelled, `WriteAllText` throws and B is left without a parent. |
| ExporterMenuSeparate.CancelledJsonRestoringKeepsParent | Assets/Packages/UnityFBXExporter/Editor/ExporterMenuSeparate.cs:140-150 | With the corrected command, in the same run B gets A back as its parent. |
| ExporterMenuSeparate.TwoObjectEntries | Assets/Packages/UnityFBXExporter/Editor/ExporterMenuSeparate.cs:237-302 | See note 6 below the table. |
| ExporterMenuMultiple.Roots | Assets/Packages/UnityFBXExporter/Editor/ExportMenuMultiple.cs:123-127 | The objects the `continue` does not skip form a sublist of the list. |
| ExporterMenuMultiple.RootsMembers | Assets/Packages/UnityFBXExporter/Editor/ExportMenuMultiple.cs:123-127 | The roots are exactly the listed objects that have no parent. |
| ExporterMenuMultiple.RootsSnoc | Assets/Packages/UnityFBXExporter/Editor/ExportMenuMultiple.cs:123-127 | One more object joins the roots exactly when it has no parent. |
| ExporterMenuMultiple.RootsStep | Assets/Packages/UnityFBXExporter/Editor/ExportMenuMultiple.cs:182-187 | The same as RootsSnoc, one index further along the list. |
| ExporterMenuMultiple.RootsAppend | Assets/Packages/UnityFBXExporter/Editor/ExportMenuMultiple.cs:123-127 | The filter keeps list order: the roots of a concatenation are the roots of each part, in turn. |
| ExporterMenuMultiple.ExportGameObject | Assets/Packages/UnityFBXExporter/Editor/ExportMenuMultiple.cs:109-137 | A null reference makes no calls and shows one warning. Otherwise it returns `GetNewPath`'s folder, writes one file per root (children are skipped) and shows one warning per failure. |
| ExporterMenuMultiple.WriteRootFiles | Assets/Packages/UnityFBXExporter/Editor/ExportMenuMultiple.cs:123-135 | The calls are `ExportCalls` of the roots; the warnings are `FailureNotices` of those calls. |
| ExporterMenuMultiple.BoundsOf | Assets/Packages/UnityFBXExporter/Editor/ExportMenuMultiple.cs:204-215 | The start box is the Renderer's box, or the first Collider's box; there is none without the component. |
| ExporterMenuMultiple.ComponentBoxes | Assets/Packages/UnityFBXExporter/Editor/ExportMenuMultiple.cs:206-216 | The boxes of all of an object's components of the kind, starting with the start box; at most one for the Renderer. |
| ExporterMenuMultiple.Boxes | Assets/Packages/UnityFBXExporter/Editor/ExportMenuMultiple.cs:206-216 | `GetComponentsInChildren<Renderer>()` yields at most one box per walked object. |
| ExporterMenuMultiple.BoxesMembers | Assets/Packages/UnityFBXExporter/Editor/ExportMenuMultiple.cs:206-216 | A box is found exactly when it belongs to a component of that kind on some walked object; an object's several colliders are all found. |
| ExporterMenuMultiple.Grown | Assets/Packages/UnityFBXExporter/Editor/ExportMenuMultiple.cs:204-224 | A grown box exists exactly when the object has the component. |
| ExporterMenuMultiple.GrownEnclosesSubtree | Assets/Packages/UnityFBXExporter/Editor/ExportMenuMultiple.cs:204-224 | The grown box encloses every box of the component on the object and on every object below it, and it is the smallest box that does. |
| ExporterMenuMultiple.MultipleDimensions | Assets/Packages/UnityFBXExporter/Editor/ExportMenuMultiple.cs:204-235 | The renderer box grown and scaled, or else the first collider's box grown over every collider. A zero result, or having neither component, gives (1,1,1). The result is never zero. |
| ExporterMenuMultiple.MultipleEntry | Assets/Packages/UnityFBXExporter/Editor/ExportMenuMultiple.cs:188-244 | X-flipped position; the unguarded registration point of the mesh (zero without a mesh); the dimensions above; the type iffs; `modelURL` naming the written file. |
| ExporterMenuMultiple.EntryOf | Assets/Packages/UnityFBXExporter/Editor/ExportMenuMultiple.cs:257 | Every scene object's entry text is the `ToJson` of its `MultipleEntry`. |
| ExporterMenuMultiple.MultipleItems | Assets/Packages/UnityFBXExporter/Editor/ExportMenuMultiple.cs:182-187 | The loop emits nothing for an object that has a parent, and the object's entry otherwise. |
| ExporterMenuMultiple.RootEntries | Assets/Packages/UnityFBXExporter/Editor/ExportMenuMultiple.cs:257-258 | The i-th part is the entry of the i-th root. |
| ExporterMenuMultiple.RootEntriesSnoc | Assets/Packages/UnityFBXExporter/Editor/ExportMenuMultiple.cs:257-258 | One more root appends its own entry. |
| ExporterMenuMultiple.RootEntriesStep | Assets/Packages/UnityFBXExporter/Editor/ExportMenuMultiple.cs:182-187 | One more object adds its entry exactly when it has no parent. |
| ExporterMenuMultiple.EmittedAreRoots | Assets/Packages/UnityFBXExporter/Editor/ExportMenuMultiple.cs:182-187 | The manifest lists exactly the roots' entries, in list order. |
| ExporterMenuMultiple.EncloseAll | Assets/Packages/UnityFBXExporter/Editor/ExportMenuMultiple.cs:208-210 | The `foreach` Encapsulate loop computes the same box as `EncapsulateAll`. |
| ExporterMenuMultiple.ComputeDimensions | Assets/Packages/UnityFBXExporter/Editor/ExportMenuMultiple.cs:204-235 | The dimensions block computes `MultipleDimensions`. |
| ExporterMenuMultiple.ExportGameObjectAsJson | Assets/Packages/UnityFBXExporter/Editor/ExportMenuMultiple.cs:174-265 | An empty JSON file name makes `WriteAllText` throw and nothing is written. Otherwise the file gets exactly `Document` of the loop's items, so the JsonText and manifest lemmas apply to it. |
| ExporterMenuMultiple.Entry | Assets/Packages/UnityFBXExporter/Editor/ExportMenuMultiple.cs:183-244 | The field assignments of the loop body build `MultipleEntry`. |
| ExporterMenuMultiple.ManifestWhenLastIsRoot | Assets/Packages/UnityFBXExporter/Editor/ExportMenuMultiple.cs:257-263 | If the last object is a root, or the list is empty, the manifest is the roots' entries joined by commas. |
| ExporterMenuMultiple.ManifestWhenLastHasParent | Assets/Packages/UnityFBXExporter/Editor/ExportMenuMultiple.cs:257-263 | If the last object has a parent and some root exists, the manifest is the joined roots' entries followed by ",]}". |
| ExporterMenuMultiple.ExportGameObjectAsJsonCorrected | Assets/Packages/UnityFBXExporter/Editor/ExportMenuMultiple.cs:180-263 | Corrected loop: the text is the envelope around the roots' entries joined by commas, with no trailing comma. |
| ExporterMenuMultiple.ExportObjects | Assets/Packages/UnityFBXExporter/Editor/ExportMenuMultiple.cs:92 | For a list with no null reference, `ExportGameObject` returns `GetNewPath`'s folder, writes one file per root and shows one warning per failure. |
| ExporterMenuMultiple.ExportCurrentGameObject | Assets/Packages/UnityFBXExporter/Editor/ExportMenuMultiple.cs:92-98 | The writer calls and warnings of `ExportGameObject`. When a folder was chosen and the JSON file was named, also the manifest `Document` and a success dialog that counts every selected object. A cancelled JSON dialog makes `WriteAllText` throw: no manifest and no success dialog. |
| ExporterMenuMultiple.TwoObjectScene | Assets/Packages/UnityFBXExporter/Editor/ExportMenuMultiple.cs:206 | A root A with child B is well formed, and the walk from A is [A, B]. |
| ExporterMenuMultiple.TwoObjectManifest | Assets/Packages/UnityFBXExporter/Editor/ExportMenuMultiple.cs:185-263 | Exporting A and B, in that order, writes `{"Entities":[<A>,]}`. The corrected loop writes `{"Entities":[<A>]}`. |
| ExporterMenuMultiple.ChildRendererGrowsDimensions | Assets/Packages/UnityFBXExporter/Editor/ExportMenuMultiple.cs:204-213 | A's dimensions also enclose B's renderer and come out as (4,4,4). |
| ExporterMenuMultiple.SecondColliderGrowsDimensions | Assets/Packages/UnityFBXExporter/Editor/ExportMenuMultiple.cs:214-223 | With no renderer and two colliders on A, both colliders are encapsulated and the dimensions come out as (4,4,4). |

Notes on the longer rows:

1. **UnparentChildRecursive.** The walk covers the object's subtree as it stood when the walk began.
   - Objects that were not yet keys are recorded with their parent at that moment.
   - The links of the whole original subtree end up cut.
   - Nothing outside it changes.
   - Records are only ever added.
2. **SeparateEntry.** Each field of an entry is stated:
   - the position is X-flipped;
   - the registration point is the guarded one, or zero without a mesh;
   - the dimensions are the mesh size times the local scale, or (1,1,1) when that is zero or there is no mesh;
   - the type and shape are exactly those of `SeparateClassification`, so the type is "Light", "" or "Model", and only a Model has the "compound" shape;
   - `id` is `fmt(id)` and `parentID` is `fmt(parent number)`;
   - `modelURL` names the written file.
3. **DetachSelection.** After the loop over the selection:
   - every selected original subtree is recorded;
   - every such subtree is flat;
   - every new key lies in one of those subtrees;
   - the earlier records are kept.
4. **SelectionOutcome.** The keys are exactly the earlier keys together with the selected original subtrees. Every object strictly below a selected object has a null parent.
5. **ExporterMenuSeparate.ExportCurrentGameObject.** The writer calls and dialogs come from the collected keys.
   - If no folder is chosen, nothing is restored: the scene stays `Flattened` and the records stay in the mapping.
   - If a folder is chosen but the JSON file dialog is cancelled, `WriteAllText` throws. The exception skips the success dialog, the re-parent loop and the Clear, so the scene also stays `Flattened` and the records stay.
   - Otherwise the manifest is taken over the keys, the success dialog is shown, the links are restored and the mapping is cleared.
6. **TwoObjectEntries.** A root A has a mesh; its child B has a Light. With A selected, the walk records B first and then A:
   - for the keys [B, A], B gets id 2 and A gets id 3;
   - A is a "Model" with the "compound" shape, registration (0.5, 0.5, 0.5), dimensions (2, 2, 2), and parent 0;
   - B is a "Light" with dimensions (1, 1, 1), and its parent is A's id.

## Left out

- **Selection resolution** (ExporterMenuSeparate.cs:83-121, ExportMenuMultiple.cs:42-68) is left out.
  - That covers the "export the whole scene?" dialog, `FindObjectsOfType` with `activeInHierarchy`, and the "not a GameObject" warning.
  - These are editor UI and queries, not modelled. Both commands start from the resolved list `current`.
- **The menu entry points** are left out. They only pass the two copy flags.
- **The `oldPath` branch of GetNewPath** (ExporterMenuSeparate.cs:214-219, ExportMenuMultiple.cs:156-159) is passed through as a parameter. It only chooses the folder the dialog opens in, and the dialog's answer is the input `chosenFolder`. Neither command passes an old path.
- **SaveFolderPanel, SaveFilePanelInProject, DisplayDialog, File.WriteAllText and the FBX writer** are host calls outside the model.
  - The dialog answer and the per-call success flag are inputs.
  - Dialogs come out as a list of `Notice` values.
  - File writes come out as `ExportCall` values and as the returned JSON text.
  - The JSON file name that `SaveFilePanelInProject` returns is the input `jsonFile`. Only whether `WriteAllText` throws on it is modelled: it throws on the empty name of a cancelled dialog. The file system itself is not modelled.
- **`JsonUtility.ToJson`, `SerializeJSON.cs` and `convertIDToString`** are abstract functions (`toJson`, `fmt`). FormattedIds assumes `fmt` is injective, which holds for the GUID-like format string used. SerializeJSON.cs is not part of this model, so the entry records hold only the fields the commands set. The rotation field is commented out in the source.
- **Null objects inside the hierarchy walk** (ExporterMenuSeparate.cs:57, 67) are left out. Scene nodes are never null; a null reference is modelled only in the list given to ExportGameObject.
- **Unity's destroyed-object "fake null"** is left out. The `parent &&` tests are modelled as "has a parent".
- **GetComponentsInChildren** includes every descendant. It skips no inactive children, because the `includeInactive` distinction is editor state, not modelled.
- **Sibling order** is one fixed `order` of the scene's objects. Children are enumerated in that order.
- **Dictionary enumeration order** is insertion order. This holds for a .NET Dictionary that is never removed from between Clears.
- **Floating point** is left out. Coordinates are reals.
  - Vector3's approximate `==` is exact equality here.
  - Single-precision rounding is not modelled.
  - A division by a zero size is the value `NonFinite`, not IEEE infinity or NaN.
- **`transform.parent = x`** is a change of the parent link. World-position-stays re-computation of local transforms is not modelled.
- **`IndexOf("Assets")`** (ExporterMenuSeparate.cs:222, ExportMenuMultiple.cs:163) is culture-sensitive in .NET. It is modelled as an ordinal search.
- **`objectID`** is an unbounded integer. A 32-bit overflow would need more than two billion objects and is not modelled.
- **The StringBuilder** is modelled as `Open` plus an accumulated body string. **`Application.dataPath`** is the input `dataPath`.
- **ExporterMenuMultiple** is modelled on values. The command changes no scene state, so there is no `Scene` object in that module.
- **The manifest lemmas of ExporterMenuMultiple** hold for any entry function. The methods instantiate them with `EntryOf`, the `ToJson` of `MultipleEntry` for each scene object.
- **ExporterMenuMultiple.ExportGameObjectAsJsonCorrected** serializes each root as the `ToJson` of the function `MultipleEntry` rather than through the method `Entry`. ExporterMenuMultiple.Entry proves the two build the same record.
- ExporterMenuSeparate.ExportCurrentGameObject: its precondition `Consistent` includes `RecordsFit`. Records left in the static mapping by an earlier, interrupted run must name objects of the scene, and a recorded parent must rank above its key in the current forest. The user can re-parent objects between two runs, so a stale record could close a cycle when it is restored. The model does not cover a run that starts from such records.
- **Colliders and renderers**: an object carries at most one Renderer, as Unity allows, but any number of Colliders.
- **Commented-out code** in ExportMenuMultiple.cs (69-91, 191-193, 226-231, 245-255) is not modelled.
- **Some source bodies are split into several Dafny methods** so that each can be proved on its own:
  - DetachDescendant, DetachSelection and DetachAndCollect;
  - FinishExport, NumberKeys, WriteEntries, WriteFbxFiles, WriteRootFiles and ExportObjects;
  - Entry and ComputeDimensions, with EncloseAll.
  Together they do what the cited lines do, in the same order.

## Findings

| source | as written | input that shows it | evidently intended | confidence | as-written member | corrected member |
|---|---|---|---|---|---|---|
| Assets/Packages/UnityFBXExporter/Editor/ExportMenuMultiple.cs:185-187, 259-261 | The comma is decided by the index (`i != Count - 1`), but objects with a parent are skipped with `continue`. A skipped last object leaves a comma after the last emitted entry. | Select a root A and its child B, in that order: the text is `{"Entities":[<A>,]}`, which is not valid JSON. | Separate the emitted entries with commas only: `{"Entities":[<A>]}`. | high, not executed | ExporterMenuMultiple.ExportGameObjectAsJson, shown by ExporterMenuMultiple.ManifestWhenLastHasParent and ExporterMenuMultiple.TwoObjectManifest | ExporterMenuMultiple.ExportGameObjectAsJsonCorrected |
| Assets/Packages/UnityFBXExporter/Editor/ExporterMenuSeparate.cs:135-137 (and 244, 317) | When ExportGameObject returns null, the command returns before the re-parent loop and the Clear. An exception from `WriteAllText` skips them too. | Select a root A that has a child B, then cancel the folder dialog (or pick a folder outside Assets). Or pick a folder and then cancel the JSON file dialog: `WriteAllText("")` at line 317 throws. Either way B keeps no parent, and the static mapping keeps its stale records. | Restore the links and clear the mapping on every exit. | medium, not executed | ExporterMenuSeparate.ExportCurrentGameObject, shown by ExporterMenuSeparate.CancelledExportLeavesChildDetached and ExporterMenuSeparate.CancelledJsonLeavesChildDetached | ExporterMenuSeparate.ExportCurrentGameObjectRestoring, shown by ExporterMenuSeparate.CancelledExportRestoringKeepsParent and ExporterMenuSeparate.CancelledJsonRestoringKeepsParent |
| Assets/Packages/UnityFBXExporter/Editor/ExportMenuMultiple.cs:199-201 | The registration point divides by the mesh size with no zero test. The separate exporter tests for zero (ExporterMenuSeparate.cs:262-264). | A root with Unity's Plane mesh (bounds (-5,0,-5)..(5,0,5)) gets a non-finite Y registration. | 0 on an axis with no extent, as in the separate exporter. | medium, not executed | Geometry.UnguardedRegistration, shown by Geometry.FlatMeshRegistration | Geometry.Registration |
| Assets/Packages/UnityFBXExporter/Editor/ExporterMenuSeparate.cs:306 (ExportMenuMultiple.cs:237) | The project directory is `dataPath.Replace("Assets", "")`, which deletes every "Assets" in the path, not only the final folder. | The data path `/xAssets/Assets` gives `/x/`, so `modelURL` points outside the project. | Drop only the trailing "Assets" folder name: `/xAssets/`. | medium, not executed | Paths.ProjectDirectoryStripsEveryAssets | Paths.StripAssetsFolder, with Paths.StripAssetsFolderOfDataPath |
