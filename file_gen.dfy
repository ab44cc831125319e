/** `cli/src/type_spec/node_builder/type_spec_file_node.rs`: one TypeSpec
    file from one parsed OpenAPI file, its imports and usings gathered in
    hash sets and an explicit `Imports` node folded into them. */
module FileGen {
  import opened Wrappers
  import opened Strings
  import opened OpenApiFile
  import opened TypeSpecAst
  import opened CompilerEnvironment
  import opened SchemaBuilder
  import opened PostProcess
  import opened ModelGen
  import opened OperationGen
  import opened TypeSpecGen

  /** `build_contents(contents, file_name, env)`, the three-argument
      contents builder the file builder calls. */
  type ContentsBuilder = (seq<OpenApiNode>, string, CompilerEnv) -> Result<seq<TsNode>>

  /** The two hash sets of `build_import_and_name_spaces`. */
  datatype Libraries = Libraries(imports: set<ImportLib>, usings: set<UsingNamespace>)

  /** The imports of each node, in order. */
  function NodeImportOutcomes(contents: seq<TsNode>, currentFile: string, env: CompilerEnv, ops: RelPathOps): (r: seq<Result<seq<ImportLib>>>)
    ensures |r| == |contents| && forall i :: 0 <= i < |contents| ==> r[i] == NodeImports(contents[i], currentFile, env, ops)
  {
    seq(|contents|, i requires 0 <= i < |contents| => NodeImports(contents[i], currentFile, env, ops))
  }

  /** The usings of all nodes, node after node. */
  function FileUsings(contents: seq<TsNode>): seq<UsingNamespace>
    decreases |contents|
  {
    if contents == [] then []
    else FileUsings(contents[..|contents| - 1]) + NodeUsings(contents[|contents| - 1])
  }

  lemma FileUsingsSnoc(contents: seq<TsNode>, i: nat)
    requires i < |contents|
    ensures FileUsings(contents[..i + 1]) == FileUsings(contents[..i]) + NodeUsings(contents[i])
  {
    assert contents[..i + 1][..i] == contents[..i];
  }

  /** What `build_import_and_name_spaces` gathers: every import and every
      using of every node, each kept once. A panic while collecting the
      imports of a node ends the build. */
  function FileLibraries(contents: seq<TsNode>, currentFile: string, env: CompilerEnv, ops: RelPathOps): Result<Libraries> {
    var imports :- Concatenated(NodeImportOutcomes(contents, currentFile, env, ops));
    Ok(Libraries(Elements(imports), Elements(FileUsings(contents))))
  }

  /** `build_import_and_name_spaces`: both sets extended node by node. */
  method BuildImportAndNameSpaces(contents: seq<TsNode>, currentFile: string, env: CompilerEnv, ops: RelPathOps) returns (r: Result<Libraries>)
    ensures r == FileLibraries(contents, currentFile, env, ops)
  {
    var outcomes := NodeImportOutcomes(contents, currentFile, env, ops);
    var s1: set<ImportLib> := {};
    var s2: set<UsingNamespace> := {};
    ghost var gathered: seq<ImportLib> := [];
    var i := 0;
    while i < |contents|
      invariant 0 <= i <= |contents|
      invariant Concatenated(outcomes[..i]) == Ok(gathered)
      invariant s1 == Elements(gathered)
      invariant s2 == Elements(FileUsings(contents[..i]))
    {
      var sub := CollectNodeImports(contents[i], currentFile, env, ops);
      assert sub == outcomes[i];
      ConcatenatedStep(outcomes, i, gathered);
      if !sub.Ok? {
        return sub.PropagateFailure();
      }
      ElementsAppend(gathered, sub.value);
      FileUsingsSnoc(contents, i);
      ElementsAppend(FileUsings(contents[..i]), NodeUsings(contents[i]));
      s1 := s1 + Elements(sub.value);
      s2 := s2 + Elements(NodeUsings(contents[i]));
      gathered := gathered + sub.value;
      i := i + 1;
    }
    assert outcomes[..i] == outcomes;
    assert contents[..i] == contents;
    r := Ok(Libraries(s1, s2));
  }

  /** The elements of a sequence, each once. */
  function Elements<T(!new)>(s: seq<T>): (r: set<T>)
    ensures forall x :: x in r <==> x in s
  {
    set x | x in s
  }

  /** The elements of two sequences one after the other. */
  lemma ElementsAppend<T(!new)>(a: seq<T>, b: seq<T>)
    ensures Elements(a + b) == Elements(a) + Elements(b)
  {
  }

  /** The items of the first `Imports` node, if there is one
      (`iter().find`). */
  function FirstImports(contents: seq<TsNode>): (r: Option<seq<ImportLib>>)
    ensures r.None? <==> forall i :: 0 <= i < |contents| ==> !contents[i].Imports?
    ensures r.Some? ==> exists i :: 0 <= i < |contents| && contents[i] == Imports(r.value) &&
                                    forall j :: 0 <= j < i ==> !contents[j].Imports?
    decreases |contents|
  {
    if contents == [] then None
    else if contents[0].Imports? then Some(contents[0].items)
    else
      var r := FirstImports(contents[1..]);
      assert forall i :: 1 <= i < |contents| ==> contents[i] == contents[1..][i - 1];
      if r.Some? then
        ghost var k :| 0 <= k < |contents[1..]| && contents[1..][k] == Imports(r.value) &&
                       forall j :: 0 <= j < k ==> !contents[1..][j].Imports?;
        assert contents[k + 1] == Imports(r.value);
        r
      else r
  }

  /** `retain` of the nodes that are not `Imports` nodes. */
  function WithoutImports(contents: seq<TsNode>): (r: seq<TsNode>)
    ensures forall n :: n in r <==> n in contents && !n.Imports?
    ensures |r| <= |contents|
    decreases |contents|
  {
    if contents == [] then []
    else (if contents[0].Imports? then [] else [contents[0]]) + WithoutImports(contents[1..])
  }

  /** `to_str().expect("invalid file name")` and `file_name().expect(...)`. */
  const FILE_NAME_PANIC: string := "invalid file name"

  /** The path of the TypeSpec file: every ".yaml" replaced by ".tsp". */
  function OutputPath(path: string): (r: string)
    ensures EndsWith(path, ".yaml") ==> EndsWith(r, ".tsp")
    ensures !Occurs(path, ".yaml") ==> r == path
  {
    var r := ReplaceAll(path, ".yaml", ".tsp");
    assert EndsWith(path, ".yaml") ==> EndsWith(r, ".tsp") by {
      if EndsWith(path, ".yaml") { ReplaceAllTrailing(path, ".yaml", ".tsp"); }
    }
    assert !Occurs(path, ".yaml") ==> r == path by {
      if !Occurs(path, ".yaml") { ReplaceAllAbsent(path, ".yaml", ".tsp"); }
    }
    r
  }

  /** `build_type_spec_file_node`: the nodes of the file are built under
      the output file's name; imports (looked up from the source path) and
      usings come out of the two sets; the items of the first `Imports`
      node join the imports, and every `Imports` node leaves the contents.
      `fileName` is `Path::file_name`. */
  function TypeSpecFileOf(file: FileNode, env: CompilerEnv, fileName: string -> Option<string>, build: ContentsBuilder, ops: RelPathOps): (r: Result<TsFile>)
    ensures fileName(OutputPath(file.path)).None? ==> r == Panic(FILE_NAME_PANIC)
    ensures r.Ok? ==> r.value.path == OutputPath(file.path)
    ensures r.Ok? ==> forall i :: 0 <= i < |r.value.contents| ==> !r.value.contents[i].Imports?
    ensures r.Ok? <==>
      && fileName(OutputPath(file.path)).Some?
      && build(file.contents, fileName(OutputPath(file.path)).value, env).Ok?
      && FileLibraries(build(file.contents, fileName(OutputPath(file.path)).value, env).value, file.path, env, ops).Ok?
  {
    var pathStr := OutputPath(file.path);
    var name := fileName(pathStr);
    if name.None? then Panic(FILE_NAME_PANIC)
    else
      var contents :- build(file.contents, name.value, env);
      var libraries :- FileLibraries(contents, file.path, env, ops);
      var explicit := FirstImports(contents);
      if explicit.Some? then
        Ok(TsFile(pathStr, multiset(libraries.imports) + multiset(explicit.value), libraries.usings, WithoutImports(contents)))
      else
        Ok(TsFile(pathStr, multiset(libraries.imports), libraries.usings, contents))
  }

  /** `build_type_spec_file_node`. */
  method BuildTypeSpecFile(file: FileNode, env: CompilerEnv, fileName: string -> Option<string>, build: ContentsBuilder, ops: RelPathOps) returns (r: Result<TsFile>)
    ensures r == TypeSpecFileOf(file, env, fileName, build, ops)
  {
    var pathStr := OutputPath(file.path);
    var name := fileName(pathStr);
    if name.None? {
      return Panic(FILE_NAME_PANIC);
    }
    var built := build(file.contents, name.value, env);
    if !built.Ok? {
      return built.PropagateFailure();
    }
    var contents := built.value;
    var libraries := BuildImportAndNameSpaces(contents, file.path, env, ops);
    if !libraries.Ok? {
      return libraries.PropagateFailure();
    }
    var imports := multiset(libraries.value.imports);
    var explicit := FirstImports(contents);
    if explicit.Some? {
      imports := imports + multiset(explicit.value);
      contents := WithoutImports(contents);
    }
    r := Ok(TsFile(pathStr, imports, libraries.value.usings, contents));
  }

  /** The contents builder of `src/type_spec/node_builder/type_spec_node.rs`,
      which does not look at the file name. */
  function SourceContents(contents: seq<OpenApiNode>, name: string, env: CompilerEnv): Result<seq<TsNode>> {
    ContentsOf(contents, env)
  }
}
