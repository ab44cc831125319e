/** Properties of the compiler environment. */
module CompilerEnvLemmas {
  import opened Wrappers
  import opened OpenApiFile
  import opened CompilerEnvironment

  /** A corpus without any `Paths` node panics. */
  lemma NoPathsNode(files: seq<FileNode>, fileName: string -> Option<string>)
    requires forall i :: 0 <= i < |AllNodes(files)| ==> !AllNodes(files)[i].Paths?
    ensures BuildPathFileMap(files, fileName) == Panic(NO_PATHS_PANIC)
  {
  }

  /** The path map succeeds exactly when every entry's ref path has a file
      name, and its keys are those file names. */
  lemma {:induction false} PathEntriesKeys(paths: seq<PathNode>, fileName: string -> Option<string>)
    ensures PathEntries(paths, fileName).Ok? <==> forall i :: 0 <= i < |paths| ==> fileName(paths[i].refFilePath).Some?
    ensures PathEntries(paths, fileName).Ok? ==>
      forall k :: k in PathEntries(paths, fileName).value <==>
        exists i :: 0 <= i < |paths| && fileName(paths[i].refFilePath) == Some(k)
    decreases |paths|
  {
    if paths != [] {
      var init := paths[..|paths| - 1];
      PathEntriesKeys(init, fileName);
      assert forall i :: 0 <= i < |init| ==> init[i] == paths[i];
      if PathEntries(paths, fileName).Ok? {
        var m := PathEntries(paths, fileName).value;
        forall k | k in m
          ensures exists i :: 0 <= i < |paths| && fileName(paths[i].refFilePath) == Some(k)
        {
          if k !in PathEntries(init, fileName).value {
            assert fileName(paths[|paths| - 1].refFilePath) == Some(k);
          }
        }
      }
    }
  }

  /** Each key maps to the route of the last entry with that file name. */
  lemma {:induction false} PathEntriesLastWins(paths: seq<PathNode>, fileName: string -> Option<string>, i: nat, k: string)
    requires PathEntries(paths, fileName).Ok?
    requires i < |paths| && fileName(paths[i].refFilePath) == Some(k)
    requires forall j :: i < j < |paths| ==> fileName(paths[j].refFilePath) != Some(k)
    ensures k in PathEntries(paths, fileName).value && PathEntries(paths, fileName).value[k] == paths[i].path
    decreases |paths|
  {
    var init := paths[..|paths| - 1];
    if i < |paths| - 1 {
      assert forall j :: 0 <= j < |init| ==> init[j] == paths[j];
      PathEntriesLastWins(init, fileName, i, k);
    }
  }

  /** `build_path_file_map` succeeds exactly when the corpus has a `Paths`
      node and every entry of the first one has a file name; its keys are
      those file names. */
  lemma PathFileMapKeys(files: seq<FileNode>, fileName: string -> Option<string>)
    ensures var paths := FirstPaths(AllNodes(files));
      BuildPathFileMap(files, fileName).Ok? <==>
        paths.Some? && forall i :: 0 <= i < |paths.value| ==> fileName(paths.value[i].refFilePath).Some?
    ensures var paths := FirstPaths(AllNodes(files));
      BuildPathFileMap(files, fileName).Ok? ==>
        forall k :: k in BuildPathFileMap(files, fileName).value <==>
          exists i :: 0 <= i < |paths.value| && fileName(paths.value[i].refFilePath) == Some(k)
  {
    var paths := FirstPaths(AllNodes(files));
    if paths.Some? {
      PathEntriesKeys(paths.value, fileName);
    }
  }

  /** The components of one file are its titled object models. */
  lemma {:induction false} FileComponentsKeys(path: string, contents: seq<OpenApiNode>, k: string)
    ensures k in FileComponents(path, contents) <==> exists j :: 0 <= j < |contents| && ComponentTitle(contents[j]) == Some(k)
    decreases |contents|
  {
    if contents != [] {
      var init := contents[..|contents| - 1];
      FileComponentsKeys(path, init, k);
      assert forall j :: 0 <= j < |init| ==> init[j] == contents[j];
    }
  }

  /** A title is in the component map exactly when some file defines a
      titled object model with it. */
  lemma {:induction false} ComponentKeys(files: seq<FileNode>, k: string)
    ensures k in ComponentFilePaths(files) <==> exists i, j :: 0 <= i < |files| && 0 <= j < |files[i].contents| && ComponentTitle(files[i].contents[j]) == Some(k)
    decreases |files|
  {
    if files != [] {
      var init := files[..|files| - 1];
      var last := files[|files| - 1];
      ComponentKeys(init, k);
      FileComponentsKeys(last.path, last.contents, k);
      assert forall i :: 0 <= i < |init| ==> init[i] == files[i];
      if k in ComponentFilePaths(files) && k !in ComponentFilePaths(init) {
        var j :| 0 <= j < |last.contents| && ComponentTitle(last.contents[j]) == Some(k);
        assert ComponentTitle(files[|files| - 1].contents[j]) == Some(k);
      }
    }
  }

  /** A title maps to the path of the last file that defines it. */
  lemma {:induction false} ComponentLastFileWins(files: seq<FileNode>, k: string, i: nat, j: nat)
    requires i < |files| && j < |files[i].contents| && ComponentTitle(files[i].contents[j]) == Some(k)
    requires forall i', j' :: i < i' < |files| && 0 <= j' < |files[i'].contents| ==> ComponentTitle(files[i'].contents[j']) != Some(k)
    ensures k in ComponentFilePaths(files) && ComponentFilePaths(files)[k] == files[i].path
    decreases |files|
  {
    var init := files[..|files| - 1];
    var last := files[|files| - 1];
    FileComponentsKeys(last.path, last.contents, k);
    if i < |files| - 1 {
      assert forall i' :: 0 <= i' < |init| ==> init[i'] == files[i'];
      ComponentLastFileWins(init, k, i, j);
    }
  }
}
