/** `cli/src/compiler/parse_postprocess.rs`: the passes over the parsed
    corpus. The corpus is a list of file nodes that the passes change in
    place: example files are dropped, each file's shared `parameters` are
    merged into its operations, and references to other files are rewritten
    into references to named components.

    Each pass is a method of `Corpus` proved against a function of the old
    corpus; the functions are what the lemmas of `PostProcessLemmas` are
    about. */
module PostProcess {
  import opened Wrappers
  import opened SchemaNodes
  import opened SchemaBuilder
  import opened OperationNodes
  import opened OpenApiFile

  // ------------------------------------------------------------ examples

  predicate HasExample(f: FileNode) {
    exists i :: 0 <= i < |f.contents| && f.contents[i].Example?
  }

  /** The files, in order, that hold no example node. */
  function WithoutExamples(files: seq<FileNode>): seq<FileNode>
    decreases |files|
  {
    if files == [] then []
    else
      var last := files[|files| - 1];
      WithoutExamples(files[..|files| - 1]) + (if HasExample(last) then [] else [last])
  }

  // ---------------------------------------------------------- parameters

  /** `list_parameter_nodes`: the parameters of every `Parameters` node, in
      content order. */
  function ListParameterNodes(contents: seq<OpenApiNode>): seq<ParameterNode>
    decreases |contents|
  {
    if contents == [] then []
    else
      var last := contents[|contents| - 1];
      ListParameterNodes(contents[..|contents| - 1]) + (if last.Parameters? then last.parameters else [])
  }

  function Names(ps: seq<ParameterNode>): set<string> {
    set p | p in ps :: p.name
  }

  /** The members of `group`, in order, whose name is not in `names`. */
  function Missing(names: set<string>, group: seq<ParameterNode>): seq<ParameterNode>
    decreases |group|
  {
    if group == [] then []
    else
      var last := group[|group| - 1];
      Missing(names, group[..|group| - 1]) + (if last.name in names then [] else [last])
  }

  /** An operation after the merge: its own parameters, then every member
      of the group whose name is not among its own parameters' names. The
      names are taken before anything is added, so a name that occurs twice
      in the group is added twice. */
  function Extended(op: OperationNode, group: seq<ParameterNode>): OperationNode {
    op.(parameters := op.parameters + Missing(Names(op.parameters), group))
  }

  /** `insert_parameters_to_operation_node`: every operation node is
      extended; other nodes stay as they are. */
  function InsertParameters(contents: seq<OpenApiNode>, group: seq<ParameterNode>): (r: seq<OpenApiNode>)
    ensures |r| == |contents|
  {
    seq(|contents|, i requires 0 <= i < |contents| =>
      if contents[i].Operation? then Operation(Extended(contents[i].operation, group)) else contents[i])
  }

  /** `delete_parameters_node`: the nodes, in order, that are not
      `Parameters` nodes. */
  function DeleteParameters(contents: seq<OpenApiNode>): seq<OpenApiNode>
    decreases |contents|
  {
    if contents == [] then []
    else
      var last := contents[|contents| - 1];
      DeleteParameters(contents[..|contents| - 1]) + (if last.Parameters? then [] else [last])
  }

  /** The merge of one file: list, insert, delete. */
  function MergedFile(f: FileNode): FileNode {
    f.(contents := DeleteParameters(InsertParameters(f.contents, ListParameterNodes(f.contents))))
  }

  function Merged(files: seq<FileNode>): (r: seq<FileNode>)
    ensures |r| == |files|
  {
    seq(|files|, i requires 0 <= i < |files| => MergedFile(files[i]))
  }

  // ----------------------------------------------------------- file refs

  /** The two path operations the rewrite needs from the file system:
      `Path::parent`, and joining a relative path to a directory then
      canonicalising it (None when the target does not exist). */
  datatype PathOps = PathOps(parent: string -> Option<string>, canonicalize: (string, string) -> Option<string>)

  /** `FilePathObjectMap`: canonical file path to the model it defines. */
  type ComponentFiles = map<string, DataModelNode>

  const ANONYMOUS_COMPONENT_REF: string := "AnonymousComponentRef"

  /** The component a file reference names: the title of the model defined
      at the canonical target, or "AnonymousComponentRef". */
  function ComponentName(target: string, components: ComponentFiles): string {
    if target in components && components[target].Title().Some? then components[target].Title().value
    else ANONYMOUS_COMPONENT_REF
  }

  /** `replace_file_ref_to_compiler_ref_in_ref_node`. */
  function RewriteRef(r: RefNode, path: string, ops: PathOps, components: ComponentFiles): (out: Result<RefNode>)
    ensures r.ComponentRef? ==> out == Ok(r)
    ensures out.Ok? ==> out.value.ComponentRef?
    ensures !out.Panic? <==>
      (r.ComponentRef? || (ops.parent(path).Some? && ops.canonicalize(ops.parent(path).value, r.filePath).Some?))
    ensures r.FileRef? && out.Ok? ==>
      out.value.componentName == ComponentName(ops.canonicalize(ops.parent(path).value, r.filePath).value, components)
  {
    match r
    case ComponentRef(_) => Ok(r)
    case FileRef(filePath) =>
      match ops.parent(path)
      case None => Panic("Failed to get parent dir")
      case Some(dir) =>
        match ops.canonicalize(dir, filePath)
        case None => Panic("Failed to canonicalize")
        case Some(target) => Ok(ComponentRef(ComponentName(target, components)))
  }

  /** A property whose value has been rewritten. */
  function WithValue(p: PropertyNode, value: Result<DataModelNode>): Result<PropertyNode> {
    var v :- value;
    Ok(p.(value := v))
  }

  /** `replace_file_ref_to_compiler_ref_in_data_model_node`: every reference
      reachable through array items, object properties and oneOf/allOf
      members is rewritten; the first panic aborts. */
  function RewriteModel(n: DataModelNode, path: string, ops: PathOps, components: ComponentFiles): (r: Result<DataModelNode>)
    ensures n.StringModel? || n.IntegerModel? || n.NumberModel? || n.BooleanModel? ==> r == Ok(n)
    ensures n.RefModel? && n.refNode.ComponentRef? ==> r == Ok(n)
    ensures r.Ok? ==>
      && r.value.Title() == n.Title()
      && r.value.ArrayModel? == n.ArrayModel? && r.value.ObjectModel? == n.ObjectModel?
      && r.value.OneOfModel? == n.OneOfModel? && r.value.AllOfModel? == n.AllOfModel?
      && r.value.RefModel? == n.RefModel?
    ensures r.Ok? && n.RefModel? ==> r.value.refNode.ComponentRef?
    decreases n
  {
    match n
    case ArrayModel(a) =>
      var items :- RewriteModel(a.items, path, ops, components);
      Ok(ArrayModel(a.(items := items)))
    case ObjectModel(o) =>
      var props :- Collect(seq(|o.properties|, j requires 0 <= j < |o.properties| =>
        WithValue(o.properties[j], RewriteModel(o.properties[j].value, path, ops, components))));
      Ok(ObjectModel(o.(properties := props)))
    case OneOfModel(o) =>
      var items :- Collect(seq(|o.items|, j requires 0 <= j < |o.items| => RewriteModel(o.items[j], path, ops, components)));
      Ok(OneOfModel(o.(items := items)))
    case AllOfModel(o) =>
      var items :- Collect(seq(|o.items|, j requires 0 <= j < |o.items| => RewriteModel(o.items[j], path, ops, components)));
      Ok(AllOfModel(o.(items := items)))
    case RefModel(r) =>
      var r' :- RewriteRef(r, path, ops, components);
      Ok(RefModel(r'))
    case _ => Ok(n)
  }

  /** One parameter: its schema is rewritten and nothing else changes. */
  function RewriteParameter(p: ParameterNode, path: string, ops: PathOps, components: ComponentFiles): (r: Result<ParameterNode>)
    ensures r.Ok? <==> RewriteModel(p.schema, path, ops, components).Ok?
    ensures r.Ok? ==> RewriteModel(p.schema, path, ops, components) == Ok(r.value.schema) && r.value.(schema := p.schema) == p
    ensures !r.Ok? ==> r == RewriteModel(p.schema, path, ops, components).PropagateFailure()
  {
    var schema :- RewriteModel(p.schema, path, ops, components);
    Ok(p.(schema := schema))
  }

  /** The request body, when there is one: its schema is rewritten and
      nothing else changes. */
  function RewriteRequestBody(b: Option<RequestBodyNode>, path: string, ops: PathOps, components: ComponentFiles): (r: Result<Option<RequestBodyNode>>)
    ensures b.None? ==> r == Ok(None)
    ensures b.Some? ==> (r.Ok? <==> RewriteModel(b.value.schema, path, ops, components).Ok?)
    ensures r.Ok? ==> r.value.Some? == b.Some?
    ensures r.Ok? && b.Some? ==>
      && RewriteModel(b.value.schema, path, ops, components) == Ok(r.value.value.schema)
      && r.value.value.(schema := b.value.schema) == b.value
    ensures b.Some? && !r.Ok? ==> r == RewriteModel(b.value.schema, path, ops, components).PropagateFailure()
  {
    if b.None? then Ok(None)
    else
      var schema :- RewriteModel(b.value.schema, path, ops, components);
      Ok(Some(b.value.(schema := schema)))
  }

  /** One response: a schema, when present, is rewritten; a response
      without one is kept as it is. */
  function RewriteResponse(resp: ResponseNode, path: string, ops: PathOps, components: ComponentFiles): (r: Result<ResponseNode>)
    ensures resp.schema.None? ==> r == Ok(resp)
    ensures resp.schema.Some? ==> (r.Ok? <==> RewriteModel(resp.schema.value, path, ops, components).Ok?)
    ensures r.Ok? ==> r.value.schema.Some? == resp.schema.Some? && r.value.(schema := resp.schema) == resp
    ensures r.Ok? && resp.schema.Some? ==> RewriteModel(resp.schema.value, path, ops, components) == Ok(r.value.schema.value)
    ensures resp.schema.Some? && !r.Ok? ==> r == RewriteModel(resp.schema.value, path, ops, components).PropagateFailure()
  {
    if resp.schema.None? then Ok(resp)
    else
      var schema :- RewriteModel(resp.schema.value, path, ops, components);
      Ok(resp.(schema := Some(schema)))
  }

  /** `replace_file_ref_to_compiler_ref_in_operation_node`: parameter
      schemas, then the request-body schema, then response schemas. */
  function RewriteOperation(op: OperationNode, path: string, ops: PathOps, components: ComponentFiles): (r: Result<OperationNode>)
    ensures r.Ok? ==>
      && |r.value.parameters| == |op.parameters|
      && |r.value.responses| == |op.responses|
      && r.value.requestBody.Some? == op.requestBody.Some?
      && r.value.(parameters := op.parameters, requestBody := op.requestBody, responses := op.responses) == op
    ensures r.Ok? && op.requestBody.Some? ==>
      && RewriteModel(op.requestBody.value.schema, path, ops, components) == Ok(r.value.requestBody.value.schema)
      && r.value.requestBody.value.(schema := op.requestBody.value.schema) == op.requestBody.value
    ensures r.Ok? ==> forall j :: 0 <= j < |op.responses| ==>
      && r.value.responses[j].schema.Some? == op.responses[j].schema.Some?
      && r.value.responses[j].(schema := op.responses[j].schema) == op.responses[j]
      && (op.responses[j].schema.Some? ==>
            RewriteModel(op.responses[j].schema.value, path, ops, components) == Ok(r.value.responses[j].schema.value))
  {
    var parameters :- Collect(seq(|op.parameters|, j requires 0 <= j < |op.parameters| =>
      RewriteParameter(op.parameters[j], path, ops, components)));
    var body :- RewriteRequestBody(op.requestBody, path, ops, components);
    var rs := seq(|op.responses|, j requires 0 <= j < |op.responses| =>
      RewriteResponse(op.responses[j], path, ops, components));
    assert forall j :: 0 <= j < |op.responses| ==> rs[j] == RewriteResponse(op.responses[j], path, ops, components);
    var responses :- Collect(rs);
    Ok(op.(parameters := parameters, requestBody := body, responses := responses))
  }

  /** One node of a file: only operations and data models are rewritten. */
  function RewriteNode(node: OpenApiNode, path: string, ops: PathOps, components: ComponentFiles): (r: Result<OpenApiNode>)
    ensures !node.Operation? && !node.DataModel? ==> r == Ok(node)
    ensures r.Ok? ==> r.value.Operation? == node.Operation? && r.value.DataModel? == node.DataModel?
    ensures r.Ok? && node.DataModel? ==> r.value.model.Title() == node.model.Title()
  {
    match node
    case Operation(op) =>
      var op' :- RewriteOperation(op, path, ops, components);
      Ok(Operation(op'))
    case DataModel(m) =>
      var m' :- RewriteModel(m, path, ops, components);
      Ok(DataModel(m'))
    case _ => Ok(node)
  }

  /** The outcome of rewriting each node of a file. */
  function NodeOutcomes(contents: seq<OpenApiNode>, path: string, ops: PathOps, components: ComponentFiles): (r: seq<Result<OpenApiNode>>)
    ensures |r| == |contents|
  {
    seq(|contents|, j requires 0 <= j < |contents| => RewriteNode(contents[j], path, ops, components))
  }

  /** One file, with its own path as the base of its references. */
  function RewriteFile(f: FileNode, ops: PathOps, components: ComponentFiles): Result<FileNode> {
    var contents :- Collect(NodeOutcomes(f.contents, f.path, ops, components));
    Ok(f.(contents := contents))
  }

  function FileOutcomes(files: seq<FileNode>, ops: PathOps, components: ComponentFiles): (r: seq<Result<FileNode>>)
    ensures |r| == |files| && forall i :: 0 <= i < |files| ==> r[i] == RewriteFile(files[i], ops, components)
  {
    seq(|files|, i requires 0 <= i < |files| => RewriteFile(files[i], ops, components))
  }

  /** `replace_file_ref_to_component_ref`: every file in order; the first
      panic aborts. */
  function Rewrite(files: seq<FileNode>, ops: PathOps, components: ComponentFiles): Result<seq<FileNode>> {
    Collect(FileOutcomes(files, ops, components))
  }

  // --------------------------------------------------------------- loops

  /** Collecting one more outcome. */
  lemma {:induction false} CollectSnoc<T>(rs: seq<Result<T>>, x: Result<T>)
    ensures Collect(rs + [x]) ==
      if !Collect(rs).Ok? then Collect(rs)
      else if x.Ok? then Ok(Collect(rs).value + [x.value])
      else x.PropagateFailure()
    decreases |rs|
  {
    if rs == [] {
      assert [] + [x] == [x];
      assert [x][1..] == [];
      if x.Ok? {
        assert [x.value] + [] == [] + [x.value];
      }
    } else {
      assert (rs + [x])[0] == rs[0];
      assert (rs + [x])[1..] == rs[1..] + [x];
      CollectSnoc(rs[1..], x);
      if rs[0].Ok? && Collect(rs[1..]).Ok? && x.Ok? {
        assert [rs[0].value] + (Collect(rs[1..]).value + [x.value]) == ([rs[0].value] + Collect(rs[1..]).value) + [x.value];
      }
    }
  }

  /** The nodes of `contents` after one merge, built node by node. */
  method InsertParametersToOperationNodes(contents: seq<OpenApiNode>, group: seq<ParameterNode>) returns (r: seq<OpenApiNode>)
    ensures r == InsertParameters(contents, group)
  {
    r := contents;
    var i := 0;
    while i < |r|
      invariant |r| == |contents| && 0 <= i <= |r|
      invariant forall j :: 0 <= j < i ==> r[j] == InsertParameters(contents, group)[j]
      invariant forall j :: i <= j < |r| ==> r[j] == contents[j]
    {
      if r[i].Operation? {
        var op := r[i].operation;
        var names := Names(op.parameters);
        var parameters := op.parameters;
        var k := 0;
        while k < |group|
          invariant 0 <= k <= |group|
          invariant parameters == op.parameters + Missing(names, group[..k])
        {
          assert group[..k + 1][..k] == group[..k];
          if group[k].name !in names {
            parameters := parameters + [group[k]];
          }
          k := k + 1;
        }
        assert group[..k] == group;
        r := r[i := Operation(op.(parameters := parameters))];
      }
      i := i + 1;
    }
  }

  /** `list_parameter_nodes` as a loop. */
  method ListParameters(contents: seq<OpenApiNode>) returns (ps: seq<ParameterNode>)
    ensures ps == ListParameterNodes(contents)
  {
    ps := [];
    var i := 0;
    while i < |contents|
      invariant 0 <= i <= |contents|
      invariant ps == ListParameterNodes(contents[..i])
    {
      assert contents[..i + 1][..i] == contents[..i];
      if contents[i].Parameters? {
        ps := ps + contents[i].parameters;
      }
      i := i + 1;
    }
    assert contents[..i] == contents;
  }

  /** `delete_parameters_node`: `retain` of every non-`Parameters` node. */
  method DeleteParametersNodes(contents: seq<OpenApiNode>) returns (r: seq<OpenApiNode>)
    ensures r == DeleteParameters(contents)
  {
    r := [];
    var i := 0;
    while i < |contents|
      invariant 0 <= i <= |contents|
      invariant r == DeleteParameters(contents[..i])
    {
      assert contents[..i + 1][..i] == contents[..i];
      if !contents[i].Parameters? {
        r := r + [contents[i]];
      }
      i := i + 1;
    }
    assert contents[..i] == contents;
  }

  /** The parsed corpus that the passes rewrite in place. */
  class Corpus {
    var files: seq<FileNode>

    constructor (files: seq<FileNode>)
      ensures this.files == files
    {
      this.files := files;
    }

    /** `remove_examples`: `retain` of the files with no example node. */
    method RemoveExamples()
      modifies this
      ensures files == WithoutExamples(old(files))
    {
      var kept: seq<FileNode> := [];
      var i := 0;
      while i < |files|
        invariant 0 <= i <= |files|
        invariant kept == WithoutExamples(files[..i])
      {
        assert files[..i + 1][..i] == files[..i];
        if !HasExample(files[i]) {
          kept := kept + [files[i]];
        }
        i := i + 1;
      }
      assert files[..i] == files;
      files := kept;
    }

    /** `merge_parameter_nodes`: every file in turn. */
    method MergeParameterNodes()
      modifies this
      ensures files == Merged(old(files))
    {
      var i := 0;
      while i < |files|
        invariant 0 <= i <= |files| && |files| == |old(files)|
        invariant forall j :: 0 <= j < i ==> files[j] == MergedFile(old(files)[j])
        invariant forall j :: i <= j < |files| ==> files[j] == old(files)[j]
      {
        var f := files[i];
        var parameters := ListParameters(f.contents);
        var inserted := InsertParametersToOperationNodes(f.contents, parameters);
        var remaining := DeleteParametersNodes(inserted);
        files := files[i := f.(contents := remaining)];
        i := i + 1;
      }
    }

    /** `replace_file_ref_to_component_ref`: file by file. A panic ends
        the run; the corpus is then left as it was, and `outcome` holds it. */
    method ReplaceFileRefToComponentRef(ops: PathOps, components: ComponentFiles) returns (outcome: Result<Unit>)
      modifies this
      ensures outcome.Ok? <==> Rewrite(old(files), ops, components).Ok?
      ensures !outcome.Ok? ==> outcome == Rewrite(old(files), ops, components).PropagateFailure()
      ensures outcome.Ok? ==> files == Rewrite(old(files), ops, components).value
      ensures !outcome.Ok? ==> files == old(files)
    {
      var fs := files;
      var fileResults := FileOutcomes(fs, ops, components);
      var rewritten: seq<FileNode> := [];
      var i := 0;
      while i < |fs|
        invariant 0 <= i <= |fs|
        invariant files == fs == old(files)
        invariant Collect(fileResults[..i]) == Ok(rewritten)
      {
        var next := ReplaceInFile(fs[i], ops, components);
        assert next == fileResults[i];
        CollectStep(fileResults, i, rewritten);
        if !next.Ok? {
          return next.PropagateFailure();
        }
        rewritten := rewritten + [next.value];
        i := i + 1;
      }
      assert fileResults[..i] == fileResults;
      files := rewritten;
      outcome := Ok(Unit);
    }
  }

  /** The nodes of one file, rewritten one after the other. */
  method ReplaceInFile(f: FileNode, ops: PathOps, components: ComponentFiles) returns (r: Result<FileNode>)
    ensures r == RewriteFile(f, ops, components)
  {
    var nodeResults := NodeOutcomes(f.contents, f.path, ops, components);
    var contents: seq<OpenApiNode> := [];
    var j := 0;
    while j < |f.contents|
      invariant 0 <= j <= |f.contents|
      invariant Collect(nodeResults[..j]) == Ok(contents)
    {
      var node := RewriteNode(f.contents[j], f.path, ops, components);
      assert node == nodeResults[j];
      CollectStep(nodeResults, j, contents);
      if !node.Ok? {
        return node.PropagateFailure();
      }
      contents := contents + [node.value];
      j := j + 1;
    }
    assert nodeResults[..j] == nodeResults;
    r := Ok(f.(contents := contents));
  }

  /** A prefix of `rs` that fails makes all of `rs` fail the same way. */
  lemma {:induction false} PrefixFailure<T>(rs: seq<Result<T>>, n: nat)
    requires n <= |rs| && !Collect(rs[..n]).Ok?
    ensures Collect(rs) == Collect(rs[..n])
    decreases |rs| - n
  {
    if n < |rs| {
      CollectSnoc(rs[..n], rs[n]);
      assert rs[..n + 1] == rs[..n] + [rs[n]];
      PrefixFailure(rs, n + 1);
    } else {
      assert rs[..n] == rs;
    }
  }

  /** When element `i` fails and everything before it collected, the whole
      sequence fails with element `i`'s failure. */
  lemma CollectPrefixFailure<T>(rs: seq<Result<T>>, i: nat)
    requires i < |rs| && Collect(rs[..i]).Ok? && !rs[i].Ok?
    ensures Collect(rs) == rs[i].PropagateFailure()
  {
    CollectSnoc(rs[..i], rs[i]);
    assert rs[..i + 1] == rs[..i] + [rs[i]];
    PrefixFailure(rs, i + 1);
  }

  /** Collecting one more element: a failure ends the collection, a
      success adds its value after those collected so far. */
  lemma CollectStep<T>(rs: seq<Result<T>>, i: nat, acc: seq<T>)
    requires i < |rs| && Collect(rs[..i]) == Ok(acc)
    ensures !rs[i].Ok? ==> Collect(rs) == rs[i].PropagateFailure()
    ensures rs[i].Ok? ==> Collect(rs[..i + 1]) == Ok(acc + [rs[i].value])
  {
    if rs[i].Ok? {
      CollectSnoc(rs[..i], rs[i]);
      assert rs[..i + 1] == rs[..i] + [rs[i]];
    } else {
      CollectPrefixFailure(rs, i);
    }
  }
}
