/** Properties of the top-level node builder: order, count and the
    libraries each kind of node needs. */
module TypeSpecGenLemmas {
  import opened Wrappers
  import opened SchemaNodes
  import opened OpenApiFile
  import opened TypeSpecAst
  import opened CompilerEnvironment
  import opened ModelGen
  import opened ModelGenLemmas
  import opened TypeSpecGen

  /** Building the contents of two pieces one after the other: the nodes
      of the first come before those of the second, and a panic in the
      first comes before anything of the second. */
  lemma {:induction false} ContentsAppend(a: seq<OpenApiNode>, b: seq<OpenApiNode>, env: CompilerEnv)
    ensures ContentsOf(a + b, env) ==
      if ContentsOf(a, env).Ok? then Prefixed(ContentsOf(a, env).value, ContentsOf(b, env)) else ContentsOf(a, env)
    decreases |a|
  {
    if a == [] {
      assert a + b == b;
      if ContentsOf(b, env).Ok? {
        assert [] + ContentsOf(b, env).value == ContentsOf(b, env).value;
      }
    } else {
      assert (a + b)[0] == a[0];
      assert (a + b)[1..] == a[1..] + b;
      ContentsAppend(a[1..], b, env);
      var node := NodeOf(a[0], env);
      if node.Ok? && ContentsOf(a[1..], env).Ok? {
        var head := if node.value.Some? then [node.value.value] else [];
        PrefixedTwice(head, ContentsOf(a[1..], env).value, ContentsOf(b, env));
      }
    }
  }

  /** How many of some source nodes produce a TypeSpec node. */
  function ProducingCount(contents: seq<OpenApiNode>): nat
    decreases |contents|
  {
    if contents == [] then 0
    else (if Produces(contents[0]) then 1 else 0) + ProducingCount(contents[1..])
  }

  /** One output node for each info and each object data model, and none
      for anything else. */
  lemma {:induction false} ContentsCount(contents: seq<OpenApiNode>, env: CompilerEnv)
    requires ContentsOf(contents, env).Ok?
    ensures |ContentsOf(contents, env).value| == ProducingCount(contents)
    decreases |contents|
  {
    if contents != [] {
      ContentsCount(contents[1..], env);
    }
  }

  /** The contents of a file that holds an info and nothing else: the
      service namespace alone. */
  lemma InfoAlone(info: InfoNode, env: CompilerEnv)
    ensures ContentsOf([Info(info)], env) == Ok([NameSpace(NamespaceOf(info, env))])
  {
    var contents := [Info(info)];
    assert contents[1..] == [];
    assert ContentsOf(contents[1..], env) == Ok([]);
    assert [NameSpace(NamespaceOf(info, env))] + [] == [NameSpace(NamespaceOf(info, env))];
  }

  /** A service namespace needs the openapi library, for its info
      decorator, and uses the openapi namespace; its service decorator
      brings nothing. */
  lemma NamespaceLibraries(info: InfoNode, env: CompilerEnv, currentFile: string, ops: RelPathOps)
    ensures NodeImports(NameSpace(NamespaceOf(info, env)), currentFile, env, ops) == Ok([ImportLib(OPENAPI_LIB)])
    ensures NodeUsings(NameSpace(NamespaceOf(info, env))) == [UsingNamespace(OPENAPI_NAMESPACE)]
  {
    var ds := NamespaceOf(info, env).decorators;
    assert ds[..1][..0] == [];
    assert ds[0].LibName().None? && ds[0].NamespaceName().None?;
    assert DecoratorLibs(ds[..1]) == [];
    assert DecoratorUsings(ds[..1]) == [];
    assert ds[1].LibName() == Some(OPENAPI_LIB);
    assert DecoratorLibs(ds) == DecoratorLibs(ds[..1]) + [ImportLib(OPENAPI_LIB)];
    assert DecoratorUsings(ds) == DecoratorUsings(ds[..1]) + [UsingNamespace(OPENAPI_NAMESPACE)];
    assert [] + [ImportLib(OPENAPI_LIB)] == [ImportLib(OPENAPI_LIB)];
    assert [] + [UsingNamespace(OPENAPI_NAMESPACE)] == [UsingNamespace(OPENAPI_NAMESPACE)];
  }

  /** A generated model imports, in order, the components its schema
      refers to. */
  lemma GeneratedModelImports(o: ObjectNode, currentFile: string, env: CompilerEnv, ops: RelPathOps)
    requires ModelNodeOf(o).Ok?
    ensures NodeImports(Model(ModelNodeOf(o).value), currentFile, env, ops) == ImportsFor(SchemaRefs(ObjectModel(o)), currentFile, env, ops)
  {
    ModelImports(o, currentFile, env, ops);
  }
}
