/** Properties of the operation builder and of its import collector. */
module OperationGenLemmas {
  import opened Wrappers
  import opened SchemaNodes
  import opened OperationNodes
  import opened TypeSpecAst
  import opened CompilerEnvironment
  import opened PostProcessLemmas
  import opened ModelGen
  import opened ModelGenLemmas
  import opened OperationGen

  /** Each verb has its own HTTP method. */
  lemma MethodInjective(a: Verb, b: Verb)
    requires MethodOf(a) == MethodOf(b)
    ensures a == b
  {
    assert ParseVerb(MethodName(MethodOf(a))) == Ok(a);
    assert ParseVerb(MethodName(MethodOf(b))) == Ok(b);
  }

  /** Two verbs share an operation name only when they are equal or are
      put and patch, which both give "update". */
  lemma OperationNameCollisions(a: Verb, b: Verb)
    ensures OperationName(a) == OperationName(b) <==> a == b || (a in {Put, Patch} && b in {Put, Patch})
  {
  }

  /** The libraries of the method decorator: the http library alone. */
  lemma MethodDecoratorLibs(m: HttpMethod)
    ensures DecoratorLibs([MethodDecorator(m)]) == [ImportLib(HTTP_LIB)]
  {
    assert [MethodDecorator(m)][..0] == [];
  }

  /** The imports of a built operation start with the http library, which
      its method decorator needs. */
  lemma OperationImportsStartWithHttp(op: OperationNode, currentFile: string, env: CompilerEnv, ops: RelPathOps)
    requires OperationOf(op).Ok?
    requires OperationImports(OperationOf(op).value, currentFile, env, ops).Ok?
    ensures |OperationImports(OperationOf(op).value, currentFile, env, ops).value| > 0
    ensures OperationImports(OperationOf(op).value, currentFile, env, ops).value[0] == ImportLib(HTTP_LIB)
  {
    DecoratedOperationImports(OperationOf(op).value, MethodOf(op.op), currentFile, env, ops);
  }

  /** An operation decorated with its method alone imports the http
      library first. */
  lemma DecoratedOperationImports(o: TsOperation, m: HttpMethod, currentFile: string, env: CompilerEnv, ops: RelPathOps)
    requires o.decorators == [MethodDecorator(m)]
    requires OperationImports(o, currentFile, env, ops).Ok?
    ensures |OperationImports(o, currentFile, env, ops).value| > 0
    ensures OperationImports(o, currentFile, env, ops).value[0] == ImportLib(HTTP_LIB)
  {
    MethodDecoratorLibs(m);
  }

  /** A path or header parameter's imports start with the http library; a
      query or cookie parameter imports only what its type refers to. */
  lemma ParameterImportsByPosition(p: ParameterNode, currentFile: string, env: CompilerEnv, ops: RelPathOps)
    requires ParameterOf(p).Ok?
    requires ParameterImports(ParameterOf(p).value, currentFile, env, ops).Ok?
    ensures var imports := ParameterImports(ParameterOf(p).value, currentFile, env, ops).value;
      && ((p.position == Path || p.position == Header) ==> |imports| > 0 && imports[0] == ImportLib(HTTP_LIB))
      && ((p.position == Query || p.position == Cookie) ==>
            imports == ImportsFor(ModelRefs(ParameterOf(p).value.typeModel), currentFile, env, ops).value)
  {
    var ds := ParameterOf(p).value.decorators;
    if ds != [] {
      assert ds[..0] == [];
    }
  }

  /** A parameter's type refers to the components its schema refers to, in
      order, also when the parameter is a list. */
  lemma ParameterRefs(p: ParameterNode)
    requires ParameterOf(p).Ok?
    ensures ModelRefs(ParameterOf(p).value.typeModel) == SchemaRefs(p.schema)
  {
    ContentRefs(p.schema);
  }

  /** A response record refers to the components of its body's schema, and
      to nothing else. */
  lemma ResponseRefs(res: ResponseNode)
    requires ResponseContent(res).Ok?
    ensures ModelRefs(ResponseContent(res).value) == if res.schema.Some? then SchemaRefs(res.schema.value) else []
  {
    var status := [RecordProperty([StatusCodeDecorator], STATUS_CODE_KEY, IntegerLiteral(StatusCode(res.status)), true)];
    var contentType :=
      if res.contentType.Some? then [RecordProperty([HeaderDecorator], CONTENT_TYPE_KEY, StringLiteral(ContentTypeName(res.contentType.value)), true)]
      else [];
    var head := status + contentType;
    var ps := ResponseContent(res).value.properties;
    assert forall i :: 0 <= i < |head| ==> ModelRefs(head[i].value) == [];
    if res.schema.Some? {
      ContentRefs(res.schema.value);
      var body := RecordProperty([BodyDecorator], BODY_KEY, ContentOf(res.schema.value).value, true);
      assert ps == head + [body];
      assert PropertyRefs(ps) == PropertyRefs(head) + [ModelRefs(body.value)];
      FlattenEmpties(PropertyRefs(head));
    } else {
      assert ps == head;
      FlattenEmpties(PropertyRefs(head));
    }
  }
}
