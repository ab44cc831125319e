/** `src/type_spec/node_builder/type_spec_node.rs` with the namespace
    builder of `cli/src/type_spec/node_builder/namespace_node.rs`: the
    top-level nodes of one file, built one source node at a time, and the
    imports and usings each of them needs. */
module TypeSpecGen {
  import opened Wrappers
  import opened SchemaNodes
  import opened OpenApiFile
  import opened TypeSpecAst
  import opened CompilerEnvironment
  import opened PostProcessLemmas
  import opened ModelGen

  /** `build_namespace_node`: the service and info decorators of the
      document's info, on an empty namespace named after the service. */
  function NamespaceOf(info: InfoNode, env: CompilerEnv): (r: TsNamespace)
    ensures r.name == env.namespace && r.contents == []
    ensures InfoOf(r) == Some(info)
  {
    var service := ServiceDecorator(info.title, info.version);
    var contact := ContactInfo(Some(info.contact.email), Some(info.contact.name), Some(info.contact.url));
    TsNamespace([service, AdditionalInfoDecorator(Some(contact), Some(info.termsOfService))], env.namespace, [])
  }

  /** The document info a namespace's decorators carry, when they are a
      service decorator followed by a complete info decorator. */
  function InfoOf(ns: TsNamespace): Option<InfoNode> {
    if |ns.decorators| == 2 && ns.decorators[0].ServiceDecorator? && ns.decorators[1].AdditionalInfoDecorator? then
      var service := ns.decorators[0];
      var info := ns.decorators[1];
      if info.contact.Some? && info.termsOfService.Some?
         && info.contact.value.email.Some? && info.contact.value.name.Some? && info.contact.value.url.Some?
      then
        var c := info.contact.value;
        Some(InfoNode(service.title, service.version, Contact(c.name.value, c.url.value, c.email.value), info.termsOfService.value))
      else None
    else None
  }

  /** What one source node becomes on its own: an info a namespace, an
      object data model a model (which panics on a file reference), and
      anything else nothing. */
  function NodeOf(n: OpenApiNode, env: CompilerEnv): Result<Option<TsNode>> {
    match n
    case Info(info) => Ok(Some(NameSpace(NamespaceOf(info, env))))
    case DataModel(ObjectModel(o)) =>
      var m :- ModelNodeOf(o);
      Ok(Some(Model(m)))
    case _ => Ok(None)
  }

  /** A source node the generator can turn into TypeSpec: every node but
      an object data model with a file reference left in it. */
  predicate Generable(n: OpenApiNode) {
    n.DataModel? && n.model.ObjectModel? ==>
      forall j :: 0 <= j < |n.model.objectNode.properties| ==> NoFileRef(n.model.objectNode.properties[j].value)
  }

  /** Whether one source node produces a TypeSpec node. */
  predicate Produces(n: OpenApiNode) {
    n.Info? || (n.DataModel? && n.model.ObjectModel?)
  }

  /** The nodes a file's contents become, from the front. */
  function ContentsOf(contents: seq<OpenApiNode>, env: CompilerEnv): (r: Result<seq<TsNode>>)
    ensures r.Ok? <==> forall i :: 0 <= i < |contents| ==> Generable(contents[i])
    ensures !r.Ok? ==> r == Panic(UNEXPECTED_REF)
    ensures r.Ok? ==> |r.value| <= |contents|
    ensures r.Ok? ==> forall i :: 0 <= i < |r.value| ==> r.value[i].NameSpace? || r.value[i].Model?
    decreases |contents|
  {
    if contents == [] then Ok([])
    else
      var node :- NodeOf(contents[0], env);
      var rest :- ContentsOf(contents[1..], env);
      assert forall i :: 1 <= i < |contents| ==> contents[i] == contents[1..][i - 1];
      Ok((if node.Some? then [node.value] else []) + rest)
  }

  /** `BuildContentResult`: the node built, if any, and the contents left. */
  datatype Step = Step(node: Option<TsNode>, rest: seq<OpenApiNode>)

  /** `Vec::remove(0)` on an empty vector. */
  const REMOVE_PANIC: string := "removal index (is 0) should be < len (is 0)"

  /** `build_content_namespace_node`. */
  function NamespaceStep(contents: seq<OpenApiNode>, env: CompilerEnv): Step {
    if |contents| > 0 && contents[0].Info? then Step(Some(NameSpace(NamespaceOf(contents[0].info, env))), contents[1..])
    else Step(None, contents)
  }

  /** `build_content_model_node`. */
  function ModelStep(contents: seq<OpenApiNode>): Result<Step> {
    if |contents| > 0 && contents[0].DataModel? && contents[0].model.ObjectModel? then
      var m :- ModelNodeOf(contents[0].model.objectNode);
      Ok(Step(Some(Model(m)), contents[1..]))
    else Ok(Step(None, contents))
  }

  /** `build_content_unknown_node`. */
  function UnknownStep(contents: seq<OpenApiNode>): Result<Step> {
    if contents == [] then Panic(REMOVE_PANIC) else Ok(Step(None, contents[1..]))
  }

  /** `build_content`: the three builders in turn, until one builds a
      node; each one that builds nothing passes the contents on as they
      are. Every round removes exactly the leading node. */
  function BuildContent(contents: seq<OpenApiNode>, env: CompilerEnv): (r: Result<Step>)
    ensures contents == [] ==> r == Panic(REMOVE_PANIC)
    ensures contents != [] ==> (r.Ok? <==> NodeOf(contents[0], env).Ok?)
    ensures contents != [] && r.Ok? ==> r.value == Step(NodeOf(contents[0], env).value, contents[1..])
    ensures contents != [] && !r.Ok? ==> r == Panic(UNEXPECTED_REF)
  {
    var namespace := NamespaceStep(contents, env);
    if namespace.node.Some? then Ok(namespace)
    else
      var model :- ModelStep(namespace.rest);
      if model.node.Some? then Ok(model)
      else UnknownStep(model.rest)
  }

  /** The outcome of the rounds still to come, after the nodes `done`. */
  function Prefixed(done: seq<TsNode>, r: Result<seq<TsNode>>): Result<seq<TsNode>> {
    if r.Ok? then Ok(done + r.value) else r
  }

  lemma PrefixedTwice(a: seq<TsNode>, b: seq<TsNode>, r: Result<seq<TsNode>>)
    ensures Prefixed(a, Prefixed(b, r)) == Prefixed(a + b, r)
  {
    if r.Ok? {
      assert a + (b + r.value) == a + b + r.value;
    }
  }

  const INVALID_CONTENTS_PANIC: string := "invalid contents"

  /** `build_contents`: rounds of `build_content` until nothing is left.
      The round that would leave the contents as long as before, and so
      panic with `INVALID_CONTENTS_PANIC`, never comes: every round removes
      one node, so there are as many rounds as source nodes. */
  method BuildContents(contents: seq<OpenApiNode>, env: CompilerEnv) returns (r: Result<seq<TsNode>>, ghost rounds: nat)
    ensures r == ContentsOf(contents, env)
    ensures r.Ok? ==> rounds == |contents|
  {
    var rest := contents;
    var result: seq<TsNode> := [];
    rounds := 0;
    assert ContentsOf(contents, env).Ok? ==> [] + ContentsOf(contents, env).value == ContentsOf(contents, env).value;
    while |rest| > 0
      invariant rounds + |rest| == |contents|
      invariant ContentsOf(contents, env) == Prefixed(result, ContentsOf(rest, env))
      decreases |rest|
    {
      var len := |rest|;
      var step := BuildContent(rest, env);
      if !step.Ok? {
        assert ContentsOf(rest, env) == Panic(UNEXPECTED_REF);
        assert step.PropagateFailure<seq<TsNode>>() == Panic(UNEXPECTED_REF);
        return step.PropagateFailure(), rounds + 1;
      }
      var node := step.value.node;
      assert ContentsOf(rest, env) == Prefixed(if node.Some? then [node.value] else [], ContentsOf(rest[1..], env));
      PrefixedTwice(result, if node.Some? then [node.value] else [], ContentsOf(rest[1..], env));
      if node.Some? {
        result := result + [node.value];
      } else {
        assert result + [] == result;
      }
      assert |step.value.rest| == len - 1;
      rest := step.value.rest;
      rounds := rounds + 1;
    }
    assert result + [] == result;
    r := Ok(result);
  }

  /** `build_import_lib_nodes_from_type_spec_node`: a namespace needs the
      libraries of its decorators, a model those of the models it refers
      to, and any other node nothing. */
  function NodeImports(node: TsNode, currentFile: string, env: CompilerEnv, ops: RelPathOps): (r: Result<seq<ImportLib>>)
    ensures !(node.NameSpace? || node.Model?) ==> r == Ok([])
    ensures node.NameSpace? ==> r == Ok(DecoratorLibs(node.namespace.decorators))
    ensures !r.Err?
  {
    match node
    case NameSpace(ns) => Ok(DecoratorLibs(ns.decorators))
    case Model(m) => ImportsFor(Flatten(PropertyRefs(m.record)), currentFile, env, ops)
    case _ => Ok([])
  }

  /** `build_import_lib_nodes_from_type_spec_node`, appending the
      collector of the node's kind. */
  method CollectNodeImports(node: TsNode, currentFile: string, env: CompilerEnv, ops: RelPathOps) returns (r: Result<seq<ImportLib>>)
    ensures r == NodeImports(node, currentFile, env, ops)
  {
    match node
    case NameSpace(ns) =>
      var imports, _ := CollectDecoratorLibs(ns.decorators);
      r := Ok(imports);
    case Model(m) =>
      r := RecordImports(m.record, currentFile, env, ops);
    case _ =>
      r := Ok([]);
  }

  /** `build_using_namespace_nodes_from_type_spec_node`: only a namespace
      uses anything, the namespaces of its decorators. */
  function NodeUsings(node: TsNode): (r: seq<UsingNamespace>)
    ensures r != [] ==> node.NameSpace?
  {
    match node
    case NameSpace(ns) => DecoratorUsings(ns.decorators)
    case _ => []
  }
}
