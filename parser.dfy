/** `cli/src/openapi_parser/parser.rs`: a YAML file is taken apart by
    repeatedly offering its remaining top-level mapping to a fixed list of
    extractors. Each extractor either recognises some keys, returning the
    nodes built from them and the mapping without them, or declines,
    returning None and a mapping that it may also have reduced.

    The extractors themselves (`parse_*_content`) are not part of this
    model: they are the parameter `run`, a function of the extractor, the
    mapping offered and the file path. */
module Parser {
  import opened Wrappers
  import opened YamlModel
  import opened SchemaBuilder
  import opened OpenApiFile

  datatype Extractor =
    | MetadataContent | InfoContent | ServersContent | TagsContent | PathsContent
    | OperationContent | DataModelContent | DataModelsContent | ParametersContent
    | ExampleContent | UnknownContent

  /** The order in which the extractors are offered the mapping. */
  const EXTRACTORS: seq<Extractor> := [
    MetadataContent, InfoContent, ServersContent, TagsContent, PathsContent,
    OperationContent, DataModelContent, DataModelsContent, ParametersContent,
    ExampleContent, UnknownContent]

  type Extraction = (Option<seq<OpenApiNode>>, Mapping)

  /** The extractors, as one function of which extractor runs. */
  type Extractors = (Extractor, Mapping, string) -> Extraction

  /** No extractor ever returns a larger mapping than it was given. */
  ghost predicate NonGrowing(run: Extractors) {
    forall x, h, path :: |run(x, h, path).1| <= |h|
  }

  /** The fold of `parse_content` from extractor `i` on: once some extractor
      has returned nodes, the state is passed through untouched. */
  function FoldFrom(run: Extractors, i: nat, state: Extraction, path: string): (r: Extraction)
    requires i <= |EXTRACTORS|
    ensures state.0.Some? ==> r == state
    ensures NonGrowing(run) ==> |r.1| <= |state.1|
    decreases |EXTRACTORS| - i
  {
    if i == |EXTRACTORS| then state
    else FoldFrom(run, i + 1, if state.0.Some? then state else run(EXTRACTORS[i], state.1, path), path)
  }

  /** `parse_content`: one round of extraction. */
  function ParseContent(run: Extractors, hash: Mapping, path: string): (r: Extraction)
    ensures NonGrowing(run) ==> |r.1| <= |hash|
  {
    FoldFrom(run, 0, (None, hash), path)
  }

  /** The mapping extractor `i` is offered when every earlier extractor has
      declined. */
  function OfferedTo(run: Extractors, hash: Mapping, path: string, i: nat): Mapping
    requires i <= |EXTRACTORS|
  {
    if i == 0 then hash else run(EXTRACTORS[i - 1], OfferedTo(run, hash, path, i - 1), path).1
  }

  /** Every extractor before `k` declined. */
  predicate DeclinedBefore(run: Extractors, hash: Mapping, path: string, k: nat)
    requires k <= |EXTRACTORS|
  {
    forall j :: 0 <= j < k ==> run(EXTRACTORS[j], OfferedTo(run, hash, path, j), path).0.None?
  }

  /** The panic of `parse_yaml_content` when a round removes nothing. */
  const INFINITE_LOOP: string := "infinite loop"

  /** The nodes of a whole mapping: rounds of `parse_content` until the
      mapping is empty, each round's nodes after the previous rounds'. */
  function YamlContent(run: Extractors, hash: Mapping, path: string): Result<seq<OpenApiNode>>
    requires NonGrowing(run)
    decreases |hash|
  {
    if |hash| == 0 then Ok([])
    else
      var round := ParseContent(run, hash, path);
      if |round.1| == |hash| then Panic(INFINITE_LOOP)
      else
        var rest :- YamlContent(run, round.1, path);
        Ok(round.0.GetOr([]) + rest)
  }

  /** `done` followed by the outcome `r` of the remaining rounds. */
  function After(done: seq<OpenApiNode>, r: Result<seq<OpenApiNode>>): Result<seq<OpenApiNode>> {
    if r.Ok? then Ok(done + r.value) else r
  }

  /** `parse_yaml_content`: the loop, which also counts its rounds. When no
      extractor grows the mapping, every round that does not panic removes
      at least one key, so there are at most as many rounds as keys. */
  method ParseYamlContent(run: Extractors, hash: Mapping, path: string) returns (r: Result<seq<OpenApiNode>>, rounds: nat)
    requires NonGrowing(run)
    ensures r == YamlContent(run, hash, path)
    ensures rounds <= |hash|
  {
    var result: seq<OpenApiNode> := [];
    var h := hash;
    rounds := 0;
    AfterNothing(YamlContent(run, h, path));
    while |h| > 0
      invariant rounds + |h| <= |hash|
      invariant YamlContent(run, hash, path) == After(result, YamlContent(run, h, path))
      decreases |h|
    {
      var len := |h|;
      var round := ParseContent(run, h, path);
      RoundStep(run, h, path);
      AfterAfter(result, round.0.GetOr([]), YamlContent(run, round.1, path));
      if round.0.Some? {
        result := result + round.0.value;
      } else {
        assert result + [] == result;
      }
      if len == |round.1| {
        return Panic(INFINITE_LOOP), rounds;
      }
      h := round.1;
      rounds := rounds + 1;
    }
    assert result + [] == result;
    r := Ok(result);
  }

  /** One round of the loop, as the recursive definition takes it. */
  lemma RoundStep(run: Extractors, h: Mapping, path: string)
    requires NonGrowing(run) && |h| > 0
    ensures var round := ParseContent(run, h, path);
      YamlContent(run, h, path) ==
        if |round.1| == |h| then Panic(INFINITE_LOOP)
        else After(round.0.GetOr([]), YamlContent(run, round.1, path))
  {
  }

  lemma AfterNothing(r: Result<seq<OpenApiNode>>)
    ensures After([], r) == r
  {
    if r.Ok? {
      assert [] + r.value == r.value;
    }
  }

  lemma AfterAfter(a: seq<OpenApiNode>, b: seq<OpenApiNode>, r: Result<seq<OpenApiNode>>)
    ensures After(a, After(b, r)) == After(a + b, r)
  {
    if r.Ok? {
      assert a + (b + r.value) == (a + b) + r.value;
    }
  }

  /** A file as loaded: its path and the YAML documents it holds. */
  datatype YamlFile = YamlFile(path: string, content: seq<Yaml>)

  /** The panic of `assert_eq!` on the number of documents (the values Rust
      appends are not modelled). */
  const ONE_DOCUMENT_PANIC: string := "assertion `left == right` failed"

  /** `parse_yaml_file`: exactly one document, which must be a mapping. */
  function ParseYamlFile(run: Extractors, file: YamlFile): (r: Result<FileNode>)
    requires NonGrowing(run)
    ensures |file.content| != 1 ==> r == Panic(ONE_DOCUMENT_PANIC)
    ensures |file.content| == 1 && !file.content[0].Hash? ==> r == Panic("invalid yaml file")
    ensures r.Ok? ==>
      && |file.content| == 1 && file.content[0].Hash?
      && r.value.path == file.path
      && YamlContent(run, file.content[0].entries, file.path) == Ok(r.value.contents)
  {
    if |file.content| != 1 then Panic(ONE_DOCUMENT_PANIC)
    else if !file.content[0].Hash? then Panic("invalid yaml file")
    else
      var contents :- YamlContent(run, file.content[0].entries, file.path);
      Ok(FileNode(file.path, contents))
  }

  /** `parse_yaml_files`: every file in order; the first panic aborts. */
  function ParseYamlFiles(run: Extractors, files: seq<YamlFile>): (r: Result<seq<FileNode>>)
    requires NonGrowing(run)
    ensures r.Ok? <==> forall i :: 0 <= i < |files| ==> ParseYamlFile(run, files[i]).Ok?
    ensures r.Ok? ==> |r.value| == |files| && forall i :: 0 <= i < |files| ==> r.value[i].path == files[i].path
  {
    var rs := seq(|files|, i requires 0 <= i < |files| => ParseYamlFile(run, files[i]));
    assert forall i :: 0 <= i < |files| ==> rs[i] == ParseYamlFile(run, files[i]);
    Collect(rs)
  }
}
