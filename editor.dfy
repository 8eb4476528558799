/** What the exporters hand to the editor host: dialogs shown and calls into the FBX writer. */
module Editor {
  import opened Hierarchy

  /** The dialog boxes the commands show, in the order they are shown. */
  datatype Notice =
    | ObjectIsNull        // "Please select any GameObject to Export to FBX"
    | NotInAssetsFolder   // "Must save file in the project's assets folder"
    | ExportFailed        // "The extension probably wasn't an FBX file, could not export."
    | Success(count: nat) // "Success <count> game objects exported"

  /**
   * File.WriteAllText throws an ArgumentException for an empty path, and the empty string is
   * what SaveFilePanelInProject returns when its dialog is cancelled.
   */
  predicate WriteAllTextThrows(file: string): (b: bool)
    ensures b <==> |file| == 0
  {
    file == ""
  }

  /** One call of the native writer FBXExporter.ExportGameObjToFBX. */
  datatype ExportCall = ExportCall(node: Node, fileName: string, copyMaterials: bool, copyTextures: bool)
}
