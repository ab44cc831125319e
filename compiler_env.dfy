/** The compiler environment of `src/compiler/compiler.rs`: the service
    namespace, the map from a path file's name to its route, and the map
    from a component's title to the file that defines it.

    `Path::file_name` is the parameter `fileName` (None for a path that ends
    in `..` or is a root); paths are strings, so `to_str` never fails. */
module CompilerEnvironment {
  import opened Wrappers
  import opened Strings
  import opened YamlModel
  import opened SchemaNodes
  import opened OpenApiFile

  /** `CompilerEnv`. */
  datatype CompilerEnv = CompilerEnv(
    namespace: string,
    pathFileMap: map<string, string>,
    componentFilePathMap: map<string, string>)

  const SERVICE_SUFFIX: string := "Service"

  /** The panic of indexing the first character of an empty name. */
  const EMPTY_NAME_PANIC: string := "index out of bounds: the len is 0 but the index is 0"

  /** `build_namespace`: the root directory's name with its first character
      upper-cased, followed by "Service". */
  method BuildNamespace(fileName: Option<string>) returns (r: Result<string>)
    ensures fileName.None? ==> r == Panic(UNWRAP_NONE)
    ensures fileName == Some("") ==> r == Panic(EMPTY_NAME_PANIC)
    ensures fileName.Some? && fileName.value != "" ==>
      var name := fileName.value;
      r.Ok? && |r.value| == |name| + |SERVICE_SUFFIX| &&
      r.value[0] == AsciiUpper(name[0]) &&
      r.value[1..|name|] == name[1..] &&
      EndsWith(r.value, SERVICE_SUFFIX)
    ensures fileName.Some? && fileName.value != "" ==>
      r == Ok([AsciiUpper(fileName.value[0])] + fileName.value[1..] + SERVICE_SUFFIX)
  {
    if fileName.None? {
      return Panic(UNWRAP_NONE);
    }
    var name := fileName.value;
    if |name| == 0 {
      return Panic(EMPTY_NAME_PANIC);
    }
    var chars := new char[|name|](i requires 0 <= i < |name| => name[i]);
    chars[0] := AsciiUpper(chars[0]);
    assert chars[..] == [AsciiUpper(name[0])] + name[1..];
    r := Ok(chars[..] + SERVICE_SUFFIX);
    assert r.value[1..|name|] == chars[1..];
  }

  // ------------------------------------------------------------ path map

  /** Every node of every file, file after file. */
  function AllNodes(files: seq<FileNode>): seq<OpenApiNode>
    decreases |files|
  {
    if files == [] then [] else AllNodes(files[..|files| - 1]) + files[|files| - 1].contents
  }

  /** The entries of the first `Paths` node, in corpus order. */
  function FirstPaths(nodes: seq<OpenApiNode>): (r: Option<seq<PathNode>>)
    ensures r.None? <==> forall i :: 0 <= i < |nodes| ==> !nodes[i].Paths?
    ensures r.Some? ==>
      exists i :: 0 <= i < |nodes| && nodes[i] == Paths(r.value) && forall j :: 0 <= j < i ==> !nodes[j].Paths?
    decreases |nodes|
  {
    if nodes == [] then None
    else if nodes[0].Paths? then Some(nodes[0].paths)
    else
      var r := FirstPaths(nodes[1..]);
      assert forall i :: 0 < i < |nodes| ==> nodes[i] == nodes[1..][i - 1];
      r
  }

  const NO_PATHS_PANIC: string := "failed to find paths node"
  const INVALID_FILE_PATH: string := "invalid file path"

  /** The map collected from the path entries: each ref file's name to its
      route; a later entry with the same file name overwrites an earlier
      one; the first entry without a file name panics. */
  function PathEntries(paths: seq<PathNode>, fileName: string -> Option<string>): (r: Result<map<string, string>>)
    ensures !r.Err?
    decreases |paths|
  {
    if paths == [] then Ok(map[])
    else
      var init :- PathEntries(paths[..|paths| - 1], fileName);
      var last := paths[|paths| - 1];
      if fileName(last.refFilePath).None? then Panic(INVALID_FILE_PATH)
      else Ok(init[fileName(last.refFilePath).value := last.path])
  }

  /** `build_path_file_map`: the entries of the first `Paths` node of the
      corpus; no such node is the `expect` panic. Which keys the map holds
      is `CompilerEnvLemmas.PathFileMapKeys`. */
  function BuildPathFileMap(files: seq<FileNode>, fileName: string -> Option<string>): (r: Result<map<string, string>>)
    ensures !r.Err?
    ensures (forall i :: 0 <= i < |AllNodes(files)| ==> !AllNodes(files)[i].Paths?) ==> r == Panic(NO_PATHS_PANIC)
  {
    var paths := FirstPaths(AllNodes(files));
    if paths.None? then Panic(NO_PATHS_PANIC) else PathEntries(paths.value, fileName)
  }

  // ------------------------------------------------------- component map

  /** The title of a node that defines a component: an object data model
      with a title. */
  function ComponentTitle(node: OpenApiNode): Option<string> {
    if node.DataModel? && node.model.ObjectModel? then node.model.objectNode.title else None
  }

  /** The components of one file, each mapped to the file's path. */
  function FileComponents(path: string, contents: seq<OpenApiNode>): (r: map<string, string>)
    ensures forall k :: k in r ==> r[k] == path
    decreases |contents|
  {
    if contents == [] then map[]
    else
      var init := FileComponents(path, contents[..|contents| - 1]);
      var title := ComponentTitle(contents[|contents| - 1]);
      if title.Some? then init[title.value := path] else init
  }

  /** The map `build_component_file_path_map` builds: file after file, a
      later definition overwriting an earlier one. */
  function ComponentFilePaths(files: seq<FileNode>): map<string, string>
    decreases |files|
  {
    if files == [] then map[]
    else
      var last := files[|files| - 1];
      ComponentFilePaths(files[..|files| - 1]) + FileComponents(last.path, last.contents)
  }

  /** `build_component_file_path_map`: two nested loops inserting into one
      map. */
  method BuildComponentFilePathMap(files: seq<FileNode>) returns (m: map<string, string>)
    ensures m == ComponentFilePaths(files)
  {
    m := map[];
    var i := 0;
    while i < |files|
      invariant 0 <= i <= |files|
      invariant m == ComponentFilePaths(files[..i])
    {
      assert files[..i + 1][..i] == files[..i];
      var f := files[i];
      var j := 0;
      while j < |f.contents|
        invariant 0 <= j <= |f.contents|
        invariant m == ComponentFilePaths(files[..i]) + FileComponents(f.path, f.contents[..j])
      {
        assert f.contents[..j + 1][..j] == f.contents[..j];
        var title := ComponentTitle(f.contents[j]);
        if title.Some? {
          m := m[title.value := f.path];
        }
        j := j + 1;
      }
      assert f.contents[..j] == f.contents;
      i := i + 1;
    }
    assert files[..i] == files;
  }

  /** `CompilerEnv` as `compile` fills it: the namespace, then the
      component map, then the path map. */
  method BuildEnv(rootName: Option<string>, files: seq<FileNode>, fileName: string -> Option<string>) returns (r: Result<CompilerEnv>)
    ensures r.Ok? <==> rootName.Some? && rootName.value != "" && BuildPathFileMap(files, fileName).Ok?
    ensures !r.Err?
    ensures rootName.None? ==> r == Panic(UNWRAP_NONE)
    ensures rootName == Some("") ==> r == Panic(EMPTY_NAME_PANIC)
    ensures rootName.Some? && rootName.value != "" && !BuildPathFileMap(files, fileName).Ok? ==>
      r == BuildPathFileMap(files, fileName).PropagateFailure()
    ensures r.Ok? ==>
      && r.value.componentFilePathMap == ComponentFilePaths(files)
      && r.value.pathFileMap == BuildPathFileMap(files, fileName).value
      && r.value.namespace == [AsciiUpper(rootName.value[0])] + rootName.value[1..] + SERVICE_SUFFIX
      && EndsWith(r.value.namespace, SERVICE_SUFFIX)
  {
    var namespace := BuildNamespace(rootName);
    if !namespace.Ok? {
      return namespace.PropagateFailure();
    }
    var components := BuildComponentFilePathMap(files);
    var paths := BuildPathFileMap(files, fileName);
    if !paths.Ok? {
      return paths.PropagateFailure();
    }
    r := Ok(CompilerEnv(namespace.value, paths.value, components));
  }
}
