/** The operation-level nodes of `openapi_node/src/operation_node`: media
    types, response statuses, parameter positions and HTTP verbs with their
    parsers, and the builders of a parameter and of a response. */
module OperationNodes {
  import opened Wrappers
  import opened Strings
  import opened YamlModel
  import opened SchemaNodes
  import opened SchemaBuilder

  // -------------------------------------------------------- content types

  datatype ContentType = ApplicationJson | ApplicationXWwwFormUrlencoded | MultipartFormData | TextPlain

  /** `ContentType::from_str`. */
  function ParseContentType(s: string): (r: Result<ContentType>)
    ensures !r.Panic?
    ensures r.Err? ==> r.error == "[RequestBodyType::from_str] invalid request body type " + s
  {
    match s
    case "application/json" => Ok(ApplicationJson)
    case "application/x-www-form-urlencoded" => Ok(ApplicationXWwwFormUrlencoded)
    case "multipart/form-data" => Ok(MultipartFormData)
    case "text/plain" => Ok(TextPlain)
    case _ => Err("[RequestBodyType::from_str] invalid request body type " + s)
  }

  /** `Display for ContentType`. */
  function ContentTypeName(c: ContentType): string {
    match c
    case ApplicationJson => "application/json"
    case ApplicationXWwwFormUrlencoded => "application/x-www-form-urlencoded"
    case MultipartFormData => "multipart/form-data"
    case TextPlain => "text/plain"
  }

  // ------------------------------------------------------------- statuses

  datatype ResponseStatus =
    | OK | Created | Accepted | NoContent | MovedPermanently | BadRequest
    | Unauthorized | Forbidden | NotFound | UnprocessableEntity | InternalServerError

  /** `ResponseStatus::get_code` (a `u16`). */
  function StatusCode(s: ResponseStatus): (r: nat)
    ensures 200 <= r <= 500
  {
    match s
    case OK => 200
    case Created => 201
    case Accepted => 202
    case NoContent => 204
    case MovedPermanently => 301
    case BadRequest => 400
    case Unauthorized => 401
    case Forbidden => 403
    case NotFound => 404
    case UnprocessableEntity => 422
    case InternalServerError => 500
  }

  /** `ResponseStatus::from_str`: the status code in decimal. */
  function ParseResponseStatus(s: string): (r: Result<ResponseStatus>)
    ensures !r.Panic?
    ensures r.Err? ==> r.error == "Invalid response status: " + s
  {
    match s
    case "200" => Ok(OK)
    case "201" => Ok(Created)
    case "202" => Ok(Accepted)
    case "204" => Ok(NoContent)
    case "301" => Ok(MovedPermanently)
    case "400" => Ok(BadRequest)
    case "401" => Ok(Unauthorized)
    case "403" => Ok(Forbidden)
    case "404" => Ok(NotFound)
    case "422" => Ok(UnprocessableEntity)
    case "500" => Ok(InternalServerError)
    case _ => Err("Invalid response status: " + s)
  }

  /** The spellings `from_str` accepts. */
  const STATUS_SPELLINGS: seq<string> :=
    ["200", "201", "202", "204", "301", "400", "401", "403", "404", "422", "500"]

  // ------------------------------------------------- positions and verbs

  datatype ParameterPosition = Query | Header | Path | Cookie

  /** `ParameterPosition::from_str`. */
  function ParsePosition(s: string): (r: Result<ParameterPosition>)
    ensures !r.Panic?
    ensures r.Err? ==> r.error == "Invalid parameter position: " + s
  {
    match s
    case "query" => Ok(Query)
    case "header" => Ok(Header)
    case "path" => Ok(Path)
    case "cookie" => Ok(Cookie)
    case _ => Err("Invalid parameter position: " + s)
  }

  /** The HTTP verb of an operation (`Operation`). */
  datatype Verb = Get | Post | Put | Delete | Patch

  /** `Operation::from_str`. */
  function ParseVerb(s: string): (r: Result<Verb>)
    ensures !r.Panic?
    ensures r.Ok? <==> s in ["get", "post", "put", "delete", "patch"]
    ensures r.Err? ==> r.error == "[Operation::from_str] invalid operation: " + s
  {
    match s
    case "get" => Ok(Get)
    case "post" => Ok(Post)
    case "put" => Ok(Put)
    case "delete" => Ok(Delete)
    case "patch" => Ok(Patch)
    case _ => Err("[Operation::from_str] invalid operation: " + s)
  }

  // ---------------------------------------------------------------- nodes

  datatype ParameterNode = ParameterNode(
    name: string,
    position: ParameterPosition,
    description: Option<string>,
    required: Option<bool>,
    schema: DataModelNode,
    parameterEnum: Option<seq<string>>)

  datatype ResponseNode = ResponseNode(
    status: ResponseStatus,
    description: Option<string>,
    contentType: Option<ContentType>,
    schema: Option<DataModelNode>,
    examples: Option<map<string, Yaml>>)

  datatype RequestBodyNode = RequestBodyNode(
    contentType: ContentType,
    schema: DataModelNode,
    examples: seq<Yaml>)

  /** An operation under a path; the parameters are a list that the
      post-processing pass extends. */
  datatype OperationNode = OperationNode(
    op: Verb,
    summary: Option<string>,
    operationId: Option<string>,
    description: Option<string>,
    tags: Option<seq<string>>,
    parameters: seq<ParameterNode>,
    requestBody: Option<RequestBodyNode>,
    responses: seq<ResponseNode>)

  // ----------------------------------------------------------- parameters

  const PARAMETER_KEYS: seq<string> :=
    ["name", "in", "description", "schema", "enum", "required", "require", "minimum", "exclusiveMinimum"]

  const PARAMETER_ENUM_BUILDER: string := "try_build_parameter_enum_from_yaml"

  /** The `enum` of a parameter, when present, through the text-enum
      builder (strings kept, integers in decimal). */
  function ParameterEnum(h: Mapping): Result<Option<seq<string>>> {
    Transposed(if GetValue(h, "enum").Some? then Some(TextEnum(GetValue(h, "enum").value, PARAMETER_ENUM_BUILDER)) else None)
  }

  /** `ParameterNode::try_from`: the value must be a mapping whose keys pass
      the key check. */
  function BuildParameter(y: Yaml): (r: Result<ParameterNode>)
    ensures !y.Hash? ==> r == Err("[ParameterNode::try_from] Expected hash")
    ensures y.Hash? && !KeyCheck(PARAMETER_KEYS, y.entries).Ok? ==> r == KeyCheck(PARAMETER_KEYS, y.entries).PropagateFailure()
    ensures y.Hash? && KeyCheck(PARAMETER_KEYS, y.entries).Ok? ==> r == ParameterFromMapping(y.entries)
  {
    if !y.Hash? then Err("[ParameterNode::try_from] Expected hash")
    else
      var check := KeyCheck(PARAMETER_KEYS, y.entries);
      if !check.Ok? then check.PropagateFailure() else ParameterFromMapping(y.entries)
  }

  /** The rest of `ParameterNode::try_from`: `name`, then `in`, which must
      parse as a position. */
  function ParameterFromMapping(h: Mapping): (r: Result<ParameterNode>)
    ensures GetString(h, "name").None? ==> r == Err("[ParameterNode::try_from] Invalid parameter name")
    ensures GetString(h, "name").Some? && GetString(h, "in").None? ==> r == Err("[ParameterNode::try_from] Invalid parameter position")
    ensures GetString(h, "name").Some? && GetString(h, "in").Some? && !ParsePosition(GetString(h, "in").value).Ok? ==>
      r == Err("Invalid parameter position: " + GetString(h, "in").value)
    ensures r.Ok? ==>
      && GetString(h, "name") == Some(r.value.name)
      && GetString(h, "in").Some?
      && ParsePosition(GetString(h, "in").value) == Ok(r.value.position)
  {
    if GetString(h, "name").None? then Err("[ParameterNode::try_from] Invalid parameter name")
    else if GetString(h, "in").None? then Err("[ParameterNode::try_from] Invalid parameter position")
    else
      var position := ParsePosition(GetString(h, "in").value);
      if !position.Ok? then position.PropagateFailure()
      else ParameterWithSchema(h, GetString(h, "name").value, position.value)
  }

  /** The last steps of `ParameterNode::try_from`: the required `schema`,
      built with the hint "{name}_schema", then the optional enum. */
  function ParameterWithSchema(h: Mapping, name: string, position: ParameterPosition): (r: Result<ParameterNode>)
    ensures GetValue(h, "schema").None? ==> r == Err("[ParameterNode::try_from] Expected schema hash, but not found")
    ensures GetValue(h, "schema").Some? && !BuildDataModel(GetValue(h, "schema").value, Some(name + "_schema")).Ok? ==>
      r == BuildDataModel(GetValue(h, "schema").value, Some(name + "_schema")).PropagateFailure()
    ensures r.Ok? ==>
      && r.value.name == name
      && r.value.position == position
      && r.value.description == GetString(h, "description")
      && r.value.required == GetBool(h, "required")
      && GetValue(h, "schema").Some?
      && BuildDataModel(GetValue(h, "schema").value, Some(name + "_schema")) == Ok(r.value.schema)
      && ParameterEnum(h) == Ok(r.value.parameterEnum)
  {
    if GetValue(h, "schema").None? then Err("[ParameterNode::try_from] Expected schema hash, but not found")
    else
      var schema := BuildDataModel(GetValue(h, "schema").value, Some(name + "_schema"));
      if !schema.Ok? then schema.PropagateFailure()
      else
        var parameterEnum := ParameterEnum(h);
        if !parameterEnum.Ok? then parameterEnum.PropagateFailure()
        else Ok(ParameterNode(name, position, GetString(h, "description"), GetBool(h, "required"), schema.value, parameterEnum.value))
  }

  // ------------------------------------------------------------ responses

  /** The custom message of the `assert_eq!` on the number of contents (the
      left/right values Rust appends are not modelled). */
  const CONTENT_COUNT_PANIC: string := "Expected exactly one content"

  /** `build_examples` over the entries of a mapping: None as soon as one
      key is not a string; a later entry overwrites an earlier one with the
      same key, as inserting into a `HashMap` does. */
  function ExampleEntries(h: Mapping): (r: Option<map<string, Yaml>>)
    ensures r.Some? ==> forall i :: 0 <= i < |h| ==> h[i].key.Str? && h[i].key.str in r.value
    decreases |h|
  {
    if h == [] then Some(map[])
    else
      var init := ExampleEntries(h[..|h| - 1]);
      var last := h[|h| - 1];
      if init.None? || !last.key.Str? then None
      else Some(init.value[last.key.str := last.value])
  }

  /** `build_examples`: the value must be a mapping. */
  function BuildExamples(y: Yaml): (r: Option<map<string, Yaml>>)
    ensures !y.Hash? ==> r.None?
    ensures r.Some? ==> forall i :: 0 <= i < |y.entries| ==> y.entries[i].key.Str? && y.entries[i].key.str in r.value
  {
    if y.Hash? then ExampleEntries(y.entries) else None
  }

  /** The content-type key, read through `.ok()`: None when it is not a
      string or not a known media type. */
  function ContentTypeOf(k: Yaml): Option<ContentType> {
    if k.Str? && ParseContentType(k.str).Ok? then Some(ParseContentType(k.str).value) else None
  }

  /** `DataModelNode::try_from(schema).ok()`: an `Err` becomes None, while a
      panic inside the builder still aborts. */
  function SchemaOrNone(v: Option<Yaml>): Result<Option<DataModelNode>> {
    if v.None? then Ok(None)
    else
      var r := FromYaml(v.value);
      if r.Ok? then Ok(Some(r.value))
      else if r.Err? then Ok(None)
      else Panic(r.reason)
  }

  /** `ResponseNode::try_from` on one `status: {...}` entry of `responses`. */
  function BuildResponse(e: Entry): (r: Result<ResponseNode>)
    ensures !e.key.Str? ==> r == Err("[ResponseNode::try_from] expected a key")
    ensures e.key.Str? && !ParseResponseStatus(e.key.str).Ok? ==> r == ParseResponseStatus(e.key.str).PropagateFailure()
    ensures e.key.Str? && ParseResponseStatus(e.key.str).Ok? && !e.value.Hash? ==> r == Err("[ResponseNode::try_from] Expected a hash")
    ensures r.Ok? ==>
      && e.key.Str? && ParseResponseStatus(e.key.str) == Ok(r.value.status)
      && e.value.Hash? && r.value.description == GetString(e.value.entries, "description")
  {
    if !e.key.Str? then Err("[ResponseNode::try_from] expected a key")
    else
      var status :- ParseResponseStatus(e.key.str);
      if !e.value.Hash? then Err("[ResponseNode::try_from] Expected a hash")
      else
        var h := e.value.entries;
        if GetHash(h, "content").None? then Panic("[ResponseNode::try_from] Expected a content")
        else
          var content := GetHash(h, "content").value;
          if |content| != 1 then Panic(CONTENT_COUNT_PANIC)
          else if !content[0].value.Hash? then Err("[ResponseNode::try_from] Expected a hash")
          else
            var body := content[0].value.entries;
            var schema :- SchemaOrNone(GetValue(body, "schema"));
            var examples := if GetValue(body, "examples").Some? then BuildExamples(GetValue(body, "examples").value) else None;
            Ok(ResponseNode(status, GetString(h, "description"), ContentTypeOf(content[0].key), schema, examples))
  }
}
