/** `compile` of `src/compiler/compiler.rs`: the whole pipeline from the
    loaded YAML files to the TypeSpec files, without the logs and without
    writing the files. Loading the files is not part of the model: they
    come in as `yamlFiles`, the name of the root directory as `rootName`. */
module Compiler {
  import opened Wrappers
  import opened Strings
  import opened YamlModel
  import opened SchemaBuilder
  import opened OpenApiFile
  import opened Parser
  import opened PostProcess
  import opened CompilerEnvironment
  import opened TypeSpecAst
  import opened ModelGen
  import opened FileGen

  /** The TypeSpec files of some parsed files, in the same order; the
      first panic ends the run (`map(...).collect()`). */
  function GenerateFiles(files: seq<FileNode>, env: CompilerEnv, fileName: string -> Option<string>, build: ContentsBuilder, ops: RelPathOps): (r: Result<seq<TsFile>>)
    ensures r.Ok? <==> forall i :: 0 <= i < |files| ==> TypeSpecFileOf(files[i], env, fileName, build, ops).Ok?
    ensures r.Ok? ==> |r.value| == |files|
    ensures r.Ok? ==> forall i :: 0 <= i < |files| ==> TypeSpecFileOf(files[i], env, fileName, build, ops) == Ok(r.value[i])
  {
    Collect(FileOutcomes(files, env, fileName, build, ops))
  }

  /** The outcome of generating each file. */
  function FileOutcomes(files: seq<FileNode>, env: CompilerEnv, fileName: string -> Option<string>, build: ContentsBuilder, ops: RelPathOps): (r: seq<Result<TsFile>>)
    ensures |r| == |files| && forall i :: 0 <= i < |files| ==> r[i] == TypeSpecFileOf(files[i], env, fileName, build, ops)
  {
    seq(|files|, i requires 0 <= i < |files| => TypeSpecFileOf(files[i], env, fileName, build, ops))
  }

  /** `compile`: parse every file, drop the example files, merge the shared
      parameters into the operations, build the environment from what is
      left, then generate one TypeSpec file per remaining file. The
      file-reference rewrite is not among the passes. `files` and `env` are
      what the generation step works from. */
  method Compile(run: Extractors, yamlFiles: seq<YamlFile>, rootName: Option<string>, fileName: string -> Option<string>, build: ContentsBuilder, ops: RelPathOps)
    returns (r: Result<seq<TsFile>>, ghost files: seq<FileNode>, ghost env: CompilerEnv)
    requires NonGrowing(run)
    ensures !ParseYamlFiles(run, yamlFiles).Ok? ==> r == ParseYamlFiles(run, yamlFiles).PropagateFailure()
    ensures ParseYamlFiles(run, yamlFiles).Ok? ==> files == Merged(WithoutExamples(ParseYamlFiles(run, yamlFiles).value))
    ensures ParseYamlFiles(run, yamlFiles).Ok? && rootName.None? ==> r == Panic(UNWRAP_NONE)
    ensures ParseYamlFiles(run, yamlFiles).Ok? && rootName == Some("") ==> r == Panic(EMPTY_NAME_PANIC)
    ensures ParseYamlFiles(run, yamlFiles).Ok? && rootName.Some? && rootName.value != "" && !BuildPathFileMap(files, fileName).Ok? ==>
      r == BuildPathFileMap(files, fileName).PropagateFailure()
    ensures ParseYamlFiles(run, yamlFiles).Ok? && rootName.Some? && rootName.value != "" && BuildPathFileMap(files, fileName).Ok? ==>
      && env == CompilerEnv(
           [AsciiUpper(rootName.value[0])] + rootName.value[1..] + SERVICE_SUFFIX,
           BuildPathFileMap(files, fileName).value,
           ComponentFilePaths(files))
      && r == GenerateFiles(files, env, fileName, build, ops)
    ensures r.Ok? ==> ParseYamlFiles(run, yamlFiles).Ok? && rootName.Some? && rootName.value != "" && BuildPathFileMap(files, fileName).Ok?
  {
    var parsed := ParseYamlFiles(run, yamlFiles);
    if !parsed.Ok? {
      return parsed.PropagateFailure(), [], CompilerEnv("", map[], map[]);
    }
    var corpus := new Corpus(parsed.value);
    corpus.RemoveExamples();
    corpus.MergeParameterNodes();
    var merged := corpus.files;
    files := merged;
    var built := BuildEnv(rootName, merged, fileName);
    if !built.Ok? {
      return built.PropagateFailure(), files, CompilerEnv("", map[], map[]);
    }
    env := built.value;
    r := GenerateFiles(merged, built.value, fileName, build, ops);
  }

  /** The generated files follow the parsed ones: one each, in order, at
      the source path with ".yaml" replaced by ".tsp". */
  lemma GeneratedPaths(files: seq<FileNode>, env: CompilerEnv, fileName: string -> Option<string>, build: ContentsBuilder, ops: RelPathOps)
    requires GenerateFiles(files, env, fileName, build, ops).Ok?
    ensures var out := GenerateFiles(files, env, fileName, build, ops).value;
      && |out| == |files|
      && (forall i :: 0 <= i < |files| ==> out[i].path == OutputPath(files[i].path))
      && (forall i :: 0 <= i < |files| && EndsWith(files[i].path, ".yaml") ==> EndsWith(out[i].path, ".tsp"))
  {
  }
}
