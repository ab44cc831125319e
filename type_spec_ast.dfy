/** The TypeSpec syntax tree the generators build (`type_spec::node`): one
    datatype for each kind of node, and one for the decorators, each of which
    knows the library it must be imported from and the namespace it must be
    used from (`LibInfo`). */
module TypeSpecAst {
  import opened Wrappers
  import opened YamlModel

  datatype TypeNode =
    | BooleanType | Int32Type | Int64Type | Float32Type | Float64Type
    | PlainDateType | UtcDateTimeType | ByteType | StringType

  /** The HTTP methods of `@get`, `@post`, ... */
  datatype HttpMethod = HttpGet | HttpPost | HttpPut | HttpDelete | HttpPatch

  /** `Display for Method`. */
  function MethodName(m: HttpMethod): string {
    match m
    case HttpGet => "get"
    case HttpPost => "post"
    case HttpPut => "put"
    case HttpDelete => "delete"
    case HttpPatch => "patch"
  }

  datatype ContactInfo = ContactInfo(email: Option<string>, name: Option<string>, url: Option<string>)

  const HTTP_LIB: string := "@typespec/http"
  const HTTP_NAMESPACE: string := "TypeSpec.Http"
  const OPENAPI_LIB: string := "@typespec/openapi"
  const OPENAPI_NAMESPACE: string := "TypeSpec.OpenAPI"

  datatype Decorator =
    // built in: @pattern, @format, @minLength, @maxLength
    | PatternDecorator(pattern: string)
    | FormatDecorator(format: string)
    | MinLengthDecorator(minLength: usize)
    | MaxLengthDecorator(maxLength: usize)
    // @typespec/http
    | PathDecorator
    | HeaderDecorator
    | StatusCodeDecorator
    | BodyDecorator
    | MethodDecorator(httpMethod: HttpMethod)
    | RouteDecorator(route: string)
    // @service and @info
    | ServiceDecorator(title: string, version: string)
    | AdditionalInfoDecorator(contact: Option<ContactInfo>, termsOfService: Option<string>)
  {
    /** `LibInfo::get_lib_name`. */
    function LibName(): (r: Option<string>)
      ensures r.Some? <==> IsHttp() || AdditionalInfoDecorator?
    {
      if IsHttp() then Some(HTTP_LIB)
      else if AdditionalInfoDecorator? then Some(OPENAPI_LIB)
      else None
    }

    /** `LibInfo::get_namespace`. */
    function NamespaceName(): (r: Option<string>)
      ensures r.Some? <==> LibName().Some?
    {
      if IsHttp() then Some(HTTP_NAMESPACE)
      else if AdditionalInfoDecorator? then Some(OPENAPI_NAMESPACE)
      else None
    }

    /** The decorators of the http library. */
    predicate IsHttp() {
      PathDecorator? || HeaderDecorator? || StatusCodeDecorator? || BodyDecorator? || MethodDecorator? || RouteDecorator?
    }
  }

  /** `ModelContentNode`. */
  datatype ModelContent =
    | Record(properties: seq<RecordProperty>)
    | ArrayOf(itemType: ModelContent)
    | Type(typeNode: TypeNode)
    | ModelRef(name: string)
    | Union(members: seq<ModelContent>)
    | Intersect(members: seq<ModelContent>)
    | StringLiteral(text: string)
    | IntegerLiteral(number: int)

  /** `RecordPropertyNode`; its key is always an identifier. */
  datatype RecordProperty = RecordProperty(decorators: seq<Decorator>, key: string, value: ModelContent, required: bool)

  datatype ModelNode = ModelNode(name: string, record: seq<RecordProperty>)

  datatype TsParameter = TsParameter(decorators: seq<Decorator>, name: string, typeModel: ModelContent)

  datatype TsOperation = TsOperation(name: string, decorators: seq<Decorator>, parameters: seq<TsParameter>, responses: seq<ModelContent>)

  datatype TsInterface = TsInterface(name: string, decorators: seq<Decorator>, operations: seq<TsOperation>)

  datatype ImportLib = ImportLib(libName: string)

  datatype UsingNamespace = UsingNamespace(namespace: string)

  /** `NamespaceNode` and `TypeSpecNode`. */
  datatype TsNamespace = TsNamespace(decorators: seq<Decorator>, name: string, contents: seq<TsNode>)

  datatype TsNode =
    | Imports(items: seq<ImportLib>)
    | NameSpace(namespace: TsNamespace)
    | Interface(interface: TsInterface)
    | Model(model: ModelNode)

  /** `TypeSpecFileNode`. The imports and usings come out of hash sets in an
      unspecified order, so the model keeps how often each occurs and not
      where. */
  datatype TsFile = TsFile(path: string, imports: multiset<ImportLib>, namespaces: set<UsingNamespace>, contents: seq<TsNode>)

  /** The libraries of some decorators, in order, skipping those with none
      (`filter_map(get_lib_name)`). */
  function DecoratorLibs(ds: seq<Decorator>): (r: seq<ImportLib>)
    ensures |r| <= |ds|
    decreases |ds|
  {
    if ds == [] then []
    else
      var last := ds[|ds| - 1];
      DecoratorLibs(ds[..|ds| - 1]) + (if last.LibName().Some? then [ImportLib(last.LibName().value)] else [])
  }

  /** The namespaces of some decorators, in order, skipping those with
      none. */
  function DecoratorUsings(ds: seq<Decorator>): (r: seq<UsingNamespace>)
    ensures |r| <= |ds|
    decreases |ds|
  {
    if ds == [] then []
    else
      var last := ds[|ds| - 1];
      DecoratorUsings(ds[..|ds| - 1]) + (if last.NamespaceName().Some? then [UsingNamespace(last.NamespaceName().value)] else [])
  }

  /** `build_import_lib_nodes_from_namespace_node` and its `using`
      counterpart share this loop shape: one item per decorator that has
      one. */
  method CollectDecoratorLibs(ds: seq<Decorator>) returns (imports: seq<ImportLib>, usings: seq<UsingNamespace>)
    ensures imports == DecoratorLibs(ds) && usings == DecoratorUsings(ds)
    ensures |imports| == |usings|
  {
    imports, usings := [], [];
    var i := 0;
    while i < |ds|
      invariant 0 <= i <= |ds|
      invariant imports == DecoratorLibs(ds[..i]) && usings == DecoratorUsings(ds[..i])
      invariant |imports| == |usings|
    {
      assert ds[..i + 1][..i] == ds[..i];
      if ds[i].LibName().Some? {
        imports := imports + [ImportLib(ds[i].LibName().value)];
      }
      if ds[i].NamespaceName().Some? {
        usings := usings + [UsingNamespace(ds[i].NamespaceName().value)];
      }
      i := i + 1;
    }
    assert ds[..i] == ds;
  }
}
