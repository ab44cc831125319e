/** `cli/src/type_spec/node_builder/operation_node.rs`: the TypeSpec
    operation of an OpenAPI operation (its method decorator, name,
    parameters and response records) and the imports the operation needs.
    Schemas become model content through `ModelGen.ContentOf`. */
module OperationGen {
  import opened Wrappers
  import opened Strings
  import opened SchemaNodes
  import opened SchemaBuilder
  import opened OperationNodes
  import opened TypeSpecAst
  import opened CompilerEnvironment
  import opened PostProcess
  import opened PostProcessLemmas
  import opened ModelGen

  /** `From<&Operation> for MethodDecoratorNode`. */
  function MethodOf(v: Verb): (r: HttpMethod)
    ensures ParseVerb(MethodName(r)) == Ok(v)
  {
    match v
    case Get => HttpGet
    case Post => HttpPost
    case Put => HttpPut
    case Delete => HttpDelete
    case Patch => HttpPatch
  }

  /** `get_operation_name`. */
  function OperationName(v: Verb): (r: string)
    ensures r in {"list", "create", "update", "delete"}
    ensures r == "update" <==> v == Put || v == Patch
  {
    match v
    case Get => "list"
    case Post => "create"
    case Patch => "update"
    case Put => "update"
    case Delete => "delete"
  }

  /** The decorator of a parameter's position: `@path` or `@header`; a
      query or cookie parameter has none. */
  function ParameterDecorators(position: ParameterPosition): (r: seq<Decorator>)
    ensures r == [PathDecorator] <==> position == Path
    ensures r == [HeaderDecorator] <==> position == Header
    ensures r == [] <==> position == Query || position == Cookie
  {
    match position
    case Path => [PathDecorator]
    case Header => [HeaderDecorator]
    case _ => []
  }

  const LIST_SUFFIX: string := "[]"

  /** `From<&ParameterNode> for type_spec::ParameterNode`: a name ending in
      "[]" loses every "[]" and its schema becomes the items of an
      untitled array. */
  function ParameterOf(p: ParameterNode): (r: Result<TsParameter>)
    ensures r.Ok? <==> NoFileRef(p.schema)
    ensures !r.Ok? ==> r == Panic(UNEXPECTED_REF)
    ensures r.Ok? ==> r.value.decorators == ParameterDecorators(p.position)
    ensures r.Ok? && EndsWith(p.name, LIST_SUFFIX) ==>
      && r.value.name == ReplaceAll(p.name, LIST_SUFFIX, "")
      && r.value.typeModel == ArrayOf(ContentOf(p.schema).value)
    ensures r.Ok? && !EndsWith(p.name, LIST_SUFFIX) ==>
      r.value.name == p.name && r.value.typeModel == ContentOf(p.schema).value
  {
    if EndsWith(p.name, LIST_SUFFIX) then
      var typeModel :- ContentOf(ArrayModel(ArrayNode(None, p.schema)));
      Ok(TsParameter(ParameterDecorators(p.position), ReplaceAll(p.name, LIST_SUFFIX, ""), typeModel))
    else
      var typeModel :- ContentOf(p.schema);
      Ok(TsParameter(ParameterDecorators(p.position), p.name, typeModel))
  }

  const STATUS_CODE_KEY: string := "statusCode"
  const CONTENT_TYPE_KEY: string := "contentType"
  const BODY_KEY: string := "body"

  /** The keys of some record properties, in order. */
  function Keys(ps: seq<RecordProperty>): (r: seq<string>)
    ensures |r| == |ps|
  {
    seq(|ps|, i requires 0 <= i < |ps| => ps[i].key)
  }

  /** The record `build_response_node` builds: the status code first, then
      the content type when the response has one, then the body when it has
      a schema; every property is required. */
  function ResponseContent(res: ResponseNode): (r: Result<ModelContent>)
    ensures r.Ok? <==> res.schema.None? || NoFileRef(res.schema.value)
    ensures !r.Ok? ==> r == Panic(UNEXPECTED_REF)
    ensures r.Ok? ==> r.value.Record? && |r.value.properties| > 0
    ensures r.Ok? ==> (
      Keys(r.value.properties) ==
        [STATUS_CODE_KEY]
        + (if res.contentType.Some? then [CONTENT_TYPE_KEY] else [])
        + (if res.schema.Some? then [BODY_KEY] else []))
    ensures r.Ok? ==> (
      r.value.properties[0] ==
        RecordProperty([StatusCodeDecorator], STATUS_CODE_KEY, IntegerLiteral(StatusCode(res.status)), true))
    ensures r.Ok? ==> forall i :: 0 <= i < |r.value.properties| ==> r.value.properties[i].required
  {
    var status := [RecordProperty([StatusCodeDecorator], STATUS_CODE_KEY, IntegerLiteral(StatusCode(res.status)), true)];
    var contentType :=
      if res.contentType.Some? then [RecordProperty([HeaderDecorator], CONTENT_TYPE_KEY, StringLiteral(ContentTypeName(res.contentType.value)), true)]
      else [];
    if res.schema.Some? then
      var body :- ContentOf(res.schema.value);
      Ok(Record(status + contentType + [RecordProperty([BodyDecorator], BODY_KEY, body, true)]))
    else
      Ok(Record(status + contentType))
  }

  /** `build_response_node`: the properties pushed one by one. */
  method BuildResponseNode(res: ResponseNode) returns (r: Result<ModelContent>)
    ensures r == ResponseContent(res)
  {
    var status := [RecordProperty([StatusCodeDecorator], STATUS_CODE_KEY, IntegerLiteral(StatusCode(res.status)), true)];
    var properties := status;
    if res.contentType.Some? {
      properties := properties + [RecordProperty([HeaderDecorator], CONTENT_TYPE_KEY, StringLiteral(ContentTypeName(res.contentType.value)), true)];
    }
    ghost var head := properties;
    assert head == status + if res.contentType.Some? then [RecordProperty([HeaderDecorator], CONTENT_TYPE_KEY, StringLiteral(ContentTypeName(res.contentType.value)), true)] else [];
    if res.schema.Some? {
      var body := ContentOf(res.schema.value);
      if !body.Ok? {
        return body.PropagateFailure();
      }
      properties := properties + [RecordProperty([BodyDecorator], BODY_KEY, body.value, true)];
    }
    r := Ok(Record(properties));
  }

  /** The parameters of an operation, each converted. */
  function ParameterOutcomes(ps: seq<ParameterNode>): (r: seq<Result<TsParameter>>)
    ensures |r| == |ps| && forall i :: 0 <= i < |ps| ==> r[i] == ParameterOf(ps[i])
  {
    seq(|ps|, i requires 0 <= i < |ps| => ParameterOf(ps[i]))
  }

  /** The responses of an operation, each converted. */
  function ResponseOutcomes(rs: seq<ResponseNode>): (r: seq<Result<ModelContent>>)
    ensures |r| == |rs| && forall i :: 0 <= i < |rs| ==> r[i] == ResponseContent(rs[i])
  {
    seq(|rs|, i requires 0 <= i < |rs| => ResponseContent(rs[i]))
  }

  /** The parameters of an operation converted in order; the first file
      reference left in one of them panics. */
  function ParametersOf(ps: seq<ParameterNode>): (r: Result<seq<TsParameter>>)
    ensures r.Ok? <==> forall i :: 0 <= i < |ps| ==> NoFileRef(ps[i].schema)
    ensures !r.Ok? ==> r == Panic(UNEXPECTED_REF)
    ensures r.Ok? ==> |r.value| == |ps| && forall i :: 0 <= i < |ps| ==> ParameterOf(ps[i]) == Ok(r.value[i])
  {
    Collect(ParameterOutcomes(ps))
  }

  /** The responses of an operation converted in order; the first file
      reference left in one of them panics. */
  function ResponsesOf(rs: seq<ResponseNode>): (r: Result<seq<ModelContent>>)
    ensures r.Ok? <==> forall i :: 0 <= i < |rs| ==> rs[i].schema.None? || NoFileRef(rs[i].schema.value)
    ensures !r.Ok? ==> r == Panic(UNEXPECTED_REF)
    ensures r.Ok? ==> |r.value| == |rs| && forall i :: 0 <= i < |rs| ==> ResponseContent(rs[i]) == Ok(r.value[i])
  {
    Collect(ResponseOutcomes(rs))
  }

  /** `build_operation_node`: one method decorator, then the parameters and
      the responses converted in order. */
  function OperationOf(op: OperationNode): (r: Result<TsOperation>)
    ensures r.Ok? <==>
      && (forall i :: 0 <= i < |op.parameters| ==> NoFileRef(op.parameters[i].schema))
      && (forall i :: 0 <= i < |op.responses| ==> op.responses[i].schema.None? || NoFileRef(op.responses[i].schema.value))
    ensures !r.Ok? ==> r == Panic(UNEXPECTED_REF)
    ensures r.Ok? ==> r.value.name == OperationName(op.op) && r.value.decorators == [MethodDecorator(MethodOf(op.op))]
    ensures r.Ok? ==> (
      && |r.value.parameters| == |op.parameters|
      && forall i :: 0 <= i < |op.parameters| ==> ParameterOf(op.parameters[i]) == Ok(r.value.parameters[i]))
    ensures r.Ok? ==> (
      && |r.value.responses| == |op.responses|
      && forall i :: 0 <= i < |op.responses| ==> ResponseContent(op.responses[i]) == Ok(r.value.responses[i]))
  {
    var parameters :- ParametersOf(op.parameters);
    var responses :- ResponsesOf(op.responses);
    Ok(TsOperation(OperationName(op.op), [MethodDecorator(MethodOf(op.op))], parameters, responses))
  }

  // ----------------------------------------------------------- imports

  /** The imports of several parts, one part after the other; the first
      part that panics ends the collection. */
  function Concatenated(rs: seq<Result<seq<ImportLib>>>): Result<seq<ImportLib>> {
    var parts :- Collect(rs);
    Ok(Flatten(parts))
  }

  /** `build_import_lib_nodes_from_parameter_node`: the libraries of the
      parameter's decorators, then the imports of its type. */
  function ParameterImports(p: TsParameter, currentFile: string, env: CompilerEnv, ops: RelPathOps): (r: Result<seq<ImportLib>>)
    ensures r.Ok? <==> ImportsFor(ModelRefs(p.typeModel), currentFile, env, ops).Ok?
    ensures r.Ok? ==> |r.value| == |DecoratorLibs(p.decorators)| + |ModelRefs(p.typeModel)|
  {
    var types :- ImportsFor(ModelRefs(p.typeModel), currentFile, env, ops);
    Ok(DecoratorLibs(p.decorators) + types)
  }

  function ParameterImportOutcomes(ps: seq<TsParameter>, currentFile: string, env: CompilerEnv, ops: RelPathOps): (r: seq<Result<seq<ImportLib>>>)
    ensures |r| == |ps| && forall i :: 0 <= i < |ps| ==> r[i] == ParameterImports(ps[i], currentFile, env, ops)
  {
    seq(|ps|, i requires 0 <= i < |ps| => ParameterImports(ps[i], currentFile, env, ops))
  }

  function ResponseImportOutcomes(rs: seq<ModelContent>, currentFile: string, env: CompilerEnv, ops: RelPathOps): (r: seq<Result<seq<ImportLib>>>)
    ensures |r| == |rs| && forall i :: 0 <= i < |rs| ==> r[i] == ImportsFor(ModelRefs(rs[i]), currentFile, env, ops)
  {
    seq(|rs|, i requires 0 <= i < |rs| => ImportsFor(ModelRefs(rs[i]), currentFile, env, ops))
  }

  /** The imports `build_import_lib_nodes_from_operation_node` collects:
      the operation's decorators, then each parameter, then each response. */
  function OperationImports(op: TsOperation, currentFile: string, env: CompilerEnv, ops: RelPathOps): Result<seq<ImportLib>> {
    var parameters :- Concatenated(ParameterImportOutcomes(op.parameters, currentFile, env, ops));
    var responses :- Concatenated(ResponseImportOutcomes(op.responses, currentFile, env, ops));
    Ok(DecoratorLibs(op.decorators) + parameters + responses)
  }

  /** `build_import_lib_nodes_from_parameter_node`. */
  method CollectParameterImports(p: TsParameter, currentFile: string, env: CompilerEnv, ops: RelPathOps) returns (r: Result<seq<ImportLib>>)
    ensures r == ParameterImports(p, currentFile, env, ops)
  {
    var imports, _ := CollectDecoratorLibs(p.decorators);
    var types := ContentImports(p.typeModel, currentFile, env, ops);
    if !types.Ok? {
      return types.PropagateFailure();
    }
    r := Ok(imports + types.value);
  }

  lemma FlattenSnocLast<T>(xs: seq<seq<T>>, y: seq<T>)
    ensures Flatten(xs + [y]) == Flatten(xs) + y
  {
    assert (xs + [y])[..|xs|] == xs;
  }

  /** One more part of a concatenation: a failure ends it, a success adds
      its imports after those gathered so far. */
  lemma ConcatenatedStep(outcomes: seq<Result<seq<ImportLib>>>, i: nat, acc: seq<ImportLib>)
    requires i < |outcomes| && Concatenated(outcomes[..i]) == Ok(acc)
    ensures !outcomes[i].Ok? ==> Concatenated(outcomes) == outcomes[i].PropagateFailure()
    ensures outcomes[i].Ok? ==> Concatenated(outcomes[..i + 1]) == Ok(acc + outcomes[i].value)
  {
    var parts := Collect(outcomes[..i]).value;
    CollectStep(outcomes, i, parts);
    if outcomes[i].Ok? {
      FlattenSnocLast(parts, outcomes[i].value);
    }
  }

  /** The parameter loop of `build_import_lib_nodes_from_operation_node`. */
  method CollectAllParameterImports(ps: seq<TsParameter>, currentFile: string, env: CompilerEnv, ops: RelPathOps) returns (r: Result<seq<ImportLib>>)
    ensures r == Concatenated(ParameterImportOutcomes(ps, currentFile, env, ops))
  {
    var outcomes := ParameterImportOutcomes(ps, currentFile, env, ops);
    var imports := [];
    var i := 0;
    while i < |ps|
      invariant 0 <= i <= |ps|
      invariant Concatenated(outcomes[..i]) == Ok(imports)
    {
      var sub := CollectParameterImports(ps[i], currentFile, env, ops);
      assert sub == outcomes[i];
      ConcatenatedStep(outcomes, i, imports);
      if !sub.Ok? {
        return sub.PropagateFailure();
      }
      imports := imports + sub.value;
      i := i + 1;
    }
    assert outcomes[..i] == outcomes;
    r := Ok(imports);
  }

  /** The response loop of `build_import_lib_nodes_from_operation_node`. */
  method CollectAllResponseImports(rs: seq<ModelContent>, currentFile: string, env: CompilerEnv, ops: RelPathOps) returns (r: Result<seq<ImportLib>>)
    ensures r == Concatenated(ResponseImportOutcomes(rs, currentFile, env, ops))
  {
    var outcomes := ResponseImportOutcomes(rs, currentFile, env, ops);
    var imports := [];
    var i := 0;
    while i < |rs|
      invariant 0 <= i <= |rs|
      invariant Concatenated(outcomes[..i]) == Ok(imports)
    {
      var sub := ContentImports(rs[i], currentFile, env, ops);
      assert sub == outcomes[i];
      ConcatenatedStep(outcomes, i, imports);
      if !sub.Ok? {
        return sub.PropagateFailure();
      }
      imports := imports + sub.value;
      i := i + 1;
    }
    assert outcomes[..i] == outcomes;
    r := Ok(imports);
  }

  /** `build_import_lib_nodes_from_operation_node`. */
  method CollectOperationImports(op: TsOperation, currentFile: string, env: CompilerEnv, ops: RelPathOps) returns (r: Result<seq<ImportLib>>)
    ensures r == OperationImports(op, currentFile, env, ops)
  {
    var imports, _ := CollectDecoratorLibs(op.decorators);
    var parameters := CollectAllParameterImports(op.parameters, currentFile, env, ops);
    if !parameters.Ok? {
      return parameters.PropagateFailure();
    }
    var responses := CollectAllResponseImports(op.responses, currentFile, env, ops);
    if !responses.Ok? {
      return responses.PropagateFailure();
    }
    r := Ok(imports + parameters.value + responses.value);
  }
}
