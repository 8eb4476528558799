/** Folder choice, file names and model URLs, as plain string functions. */
module Paths {
  import opened Wrappers
  import opened Editor

  /** `pat` occurs in `s` starting at index `j`. */
  predicate OccursAt(s: string, pat: string, j: int) {
    0 <= j && j + |pat| <= |s| && s[j..j + |pat|] == pat
  }

  /** The first occurrence of `pat` at or after `i`, or -1. */
  function IndexFrom(s: string, pat: string, i: nat): (r: int)
    requires i <= |s|
    ensures r == -1 || (i <= r && OccursAt(s, pat, r))
    ensures forall j :: i <= j && (r == -1 || j < r) ==> !OccursAt(s, pat, j)
    decreases |s| - i
  {
    if OccursAt(s, pat, i) then i
    else if i == |s| then -1
    else IndexFrom(s, pat, i + 1)
  }

  /** String.IndexOf(string): the first occurrence of `pat` in `s`, or -1 when there is none. */
  function IndexOf(s: string, pat: string): (r: int)
    ensures r == -1 <==> forall j :: !OccursAt(s, pat, j)
    ensures r != -1 ==> OccursAt(s, pat, r) && forall j :: j < r ==> !OccursAt(s, pat, j)
  {
    IndexFrom(s, pat, 0)
  }

  /** String.Contains(string): `pat` occurs somewhere in `s`. */
  predicate Contains(s: string, pat: string)
    ensures Contains(s, pat) <==> exists j :: OccursAt(s, pat, j)
  {
    IndexOf(s, pat) >= 0
  }

  /** The folder chosen in the save dialog, as GetNewPath returns it, and the dialogs it showed. */
  datatype FolderChoice = FolderChoice(path: Option<string>, notices: seq<Notice>)

  /**
   * GetNewPath: `chosen` is what SaveFolderPanel returned (the empty string when the user
   * cancels). Without an old path the folder must contain "/Assets"; in any case the
   * result is cut down to start at the first "Assets".
   */
  function GetNewPath(oldPath: Option<string>, chosen: string): (r: FolderChoice)
    ensures r.notices == if oldPath.None? && !Contains(chosen, "/Assets") then [NotInAssetsFolder] else []
    ensures r.path.Some? <==> (oldPath.Some? || Contains(chosen, "/Assets")) && Contains(chosen, "Assets")
    ensures r.path.Some? ==>
      var p := r.path.value;
      && |p| <= |chosen| && chosen[|chosen| - |p|..] == p
      && OccursAt(p, "Assets", 0)
      && forall j :: j < |chosen| - |p| ==> !OccursAt(chosen, "Assets", j)
  {
    if oldPath.None? && !Contains(chosen, "/Assets") then
      FolderChoice(None, [NotInAssetsFolder])
    else
      var assetsIndex := IndexOf(chosen, "Assets");
      if assetsIndex < 0 then FolderChoice(None, [])
      else if assetsIndex > 0 then FolderChoice(Some(chosen[assetsIndex..]), [])
      else FolderChoice(Some(chosen), [])
  }

  /** Every occurrence of "/Assets" carries an occurrence of "Assets" one place later. */
  lemma SlashAssetsContainsAssets(s: string)
    requires Contains(s, "/Assets")
    ensures Contains(s, "Assets")
  {
    var j := IndexOf(s, "/Assets");
    assert s[j + 1..j + 7] == s[j..j + 7][1..];
    assert OccursAt(s, "Assets", j + 1);
  }

  /**
   * With no old path, both exporters accept the chosen folder exactly when it contains
   * "/Assets", and then keep the part of it that starts at the first "Assets".
   */
  lemma AssetsFolderRequired(chosen: string)
    ensures GetNewPath(None, chosen).path.Some? <==> Contains(chosen, "/Assets")
    ensures GetNewPath(None, chosen).path.Some? ==>
      var i := IndexOf(chosen, "Assets");
      i >= 0 && GetNewPath(None, chosen).path.value == chosen[i..]
  {
    if Contains(chosen, "/Assets") {
      SlashAssetsContainsAssets(chosen);
    }
  }

  /** String.Replace(pat, rep): left to right, non-overlapping, ordinal. */
  function Replace(s: string, pat: string, rep: string): (r: string)
    requires |pat| > 0
    ensures (forall j :: !OccursAt(s, pat, j)) ==> r == s
    ensures |rep| <= |pat| ==> |r| <= |s|
    decreases |s|
  {
    if |s| < |pat| then s
    else if OccursAt(s, pat, 0) then rep + Replace(s[|pat|..], pat, rep)
    else
      assert forall j :: OccursAt(s[1..], pat, j) ==> OccursAt(s, pat, j + 1) by {
        forall j | OccursAt(s[1..], pat, j) ensures OccursAt(s, pat, j + 1) {
          assert s[1..][j..j + |pat|] == s[j + 1..j + 1 + |pat|];
        }
      }
      [s[0]] + Replace(s[1..], pat, rep)
  }

  lemma NotAssetsAt0(s: string)
    requires |s| > 0 && s[0] != 'A'
    ensures !OccursAt(s, "Assets", 0)
  {
    if |s| >= 6 {
      assert s[0..6][0] == s[0];
    }
  }

  /** One unfolding of Replace with "Assets" removed: `s` begins either with "Assets" or with the character `head`. */
  lemma ReplaceStep(s: string, head: string, rest: string)
    requires (head == "" && s == "Assets" + rest) || (|head| == 1 && s == head + rest && !OccursAt(s, "Assets", 0))
    ensures Replace(s, "Assets", "") == head + Replace(rest, "Assets", "")
  {
    if head == "" {
      assert OccursAt(s, "Assets", 0) && s[6..] == rest;
    } else if |s| >= 6 {
      assert s[1..] == rest;
    }
  }

  /** The project directory as both exporters compute it: Application.dataPath.Replace("Assets", ""). */
  function ProjectDirectory(dataPath: string): (r: string)
    ensures |r| <= |dataPath|
    ensures (forall j :: !OccursAt(dataPath, "Assets", j)) ==> r == dataPath
  {
    Replace(dataPath, "Assets", "")
  }

  /**
   * For the usual data path, "<project>/Assets" with no "Assets" inside <project>,
   * the project directory is "<project>/".
   */
  lemma {:induction false} ProjectDirectoryOfDataPath(project: string)
    requires forall j :: !OccursAt(project, "Assets", j)
    ensures ProjectDirectory(project + "/Assets") == project + "/"
    decreases |project|
  {
    var s := project + "/Assets";
    if project == [] {
      assert !OccursAt(s, "Assets", 0) by { assert s[0] == '/'; }
      assert s[1..] == "Assets";
      assert Replace(s[1..], "Assets", "") == "" + Replace("", "Assets", "");
    } else {
      if |project| >= 6 {
        assert project[..6] == s[..6];
        assert !OccursAt(project, "Assets", 0);
      } else {
        SlashBreaksAssets(project);
      }
      assert s[1..] == project[1..] + "/Assets";
      forall j ensures !OccursAt(project[1..], "Assets", j) {
        assert !OccursAt(project, "Assets", j + 1);
        if 0 <= j && j + 6 <= |project| - 1 {
          assert project[1..][j..j + 6] == project[j + 1..j + 7];
        }
      }
      ProjectDirectoryOfDataPath(project[1..]);
    }
  }

  /** A '/' within the first six characters rules out a leading "Assets". */
  lemma SlashBreaksAssets(project: string)
    requires |project| < 6
    ensures (project + "/Assets")[..6] != "Assets"
  {
    var s := project + "/Assets";
    assert s[|project|] == '/';
    assert s[..6][|project|] == '/';
  }

  /** The evidently intended project directory: the data path without its final "Assets" folder name. */
  function StripAssetsFolder(dataPath: string): (r: string)
    ensures |r| <= |dataPath| && dataPath[..|r|] == r
  {
    if |dataPath| >= 6 && dataPath[|dataPath| - 6..] == "Assets" then dataPath[..|dataPath| - 6] else dataPath
  }

  /** For every project directory, the data path "<project>/Assets" gives back "<project>/". */
  lemma StripAssetsFolderOfDataPath(project: string)
    ensures StripAssetsFolder(project + "/Assets") == project + "/"
  {
    var s := project + "/Assets";
    assert s[|s| - 6..] == "Assets";
    assert s[..|s| - 6] == project + "/";
  }

  /**
   * A project stored under a folder whose name contains "Assets" loses that text too:
   * for the data path "/xAssets/Assets" the replace yields "/x/" where "/xAssets/" is meant
   * (which StripAssetsFolder gives, by StripAssetsFolderOfDataPath).
   */
  lemma ProjectDirectoryStripsEveryAssets(x: char)
    requires x != 'A'
    ensures ProjectDirectory("/" + [x] + "Assets/Assets") == "/" + [x] + "/"
  {
    var tail := [x] + "Assets/Assets";
    assert Replace(tail, "Assets", "") == [x] + "/" by {
      NotAssetsAt0(tail);
      ReplaceStep(tail, [x], "Assets/Assets");
      ReplaceTwoAssets();
    }
    var s := "/" + tail;
    NotAssetsAt0(s);
    ReplaceStep(s, "/", tail);
    assert "/" + [x] + "Assets/Assets" == s;
  }

  lemma ReplaceTwoAssets()
    ensures Replace("Assets/Assets", "Assets", "") == "/"
  {
    ReplaceStep("Assets/Assets", "", "/Assets");
    ReplaceSlashAssets();
  }

  lemma ReplaceSlashAssets()
    ensures Replace("/Assets", "Assets", "") == "/"
  {
    NotAssetsAt0("/Assets");
    ReplaceStep("/Assets", "/", "Assets");
    ReplaceStep("Assets", "", "");
  }

  /** The file the FBX writer is asked to create for a node: "<folder>/<name>.fbx". */
  function FbxFileName(folder: string, name: string): (r: string)
    ensures |r| == |folder| + |name| + 5
    ensures r[..|folder|] == folder && r[|folder|] == '/'
    ensures r[|folder| + 1..|folder| + 1 + |name|] == name && r[|r| - 4..] == ".fbx"
  {
    folder + "/" + name + ".fbx"
  }

  /** modelURL as both exporters build it. */
  function ModelUrl(dataPath: string, path: string, name: string): (r: string)
    ensures r == "file:///" + ProjectDirectory(dataPath) + FbxFileName(path, name)
  {
    "file:///" + ProjectDirectory(dataPath) + path + "/" + name + ".fbx"
  }

  /**
   * For the usual data path the model URL is the file URI of the exported FBX file:
   * the project directory followed by the name the file was written under.
   */
  lemma ModelUrlNamesExportedFile(project: string, folder: string, name: string)
    requires forall j :: !OccursAt(project, "Assets", j)
    ensures ModelUrl(project + "/Assets", folder, name) == "file:///" + project + "/" + FbxFileName(folder, name)
  {
    ProjectDirectoryOfDataPath(project);
  }
}
