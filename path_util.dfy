/** `definedS3Key`: an object key with an optional folder prefix. */
module PathUtil {
  import opened JsCommon

  /**
   * `definedS3Key(fileName, path?)`: `path/fileName` when the path is
   * truthy (present and non-empty), otherwise the bare file name.
   */
  function DefinedS3Key(fileName: string, path: Option<string>): (key: string)
    ensures |key| >= |fileName| && key[|key| - |fileName|..] == fileName
    ensures path.Some? && path.value != "" ==>
      |key| == |path.value| + 1 + |fileName| && key[..|path.value|] == path.value && key[|path.value|] == '/'
    ensures path.None? || path == Some("") ==> key == fileName
  {
    if path.Some? && path.value != "" then path.value + "/" + fileName else fileName
  }

  /** The key determines the file name and, when a folder was given, the folder too. */
  lemma DefinedS3KeyInjective(f1: string, p1: string, f2: string, p2: string)
    requires p1 != "" && p2 != "" && |f1| == |f2|
    requires DefinedS3Key(f1, Some(p1)) == DefinedS3Key(f2, Some(p2))
    ensures f1 == f2 && p1 == p2
  {
    var k := DefinedS3Key(f1, Some(p1));
    assert k[|k| - |f1|..] == f1;
    assert |p1| == |p2|;
    assert k[..|p1|] == p1;
  }
}
