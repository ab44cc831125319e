/** The schema-object nodes of `openapi_node/src/data_model_node`: one node
    kind per OpenAPI schema shape, the three format enumerations with their
    parsers, and `DataModelNode::title`. Floating-point fields of the number
    node are not part of the model. */
module SchemaNodes {
  import opened Wrappers
  import opened YamlModel

  datatype StringFormat = Date | DateTime | Byte | Binary

  /** `StringFormat::from_str`. */
  function ParseStringFormat(s: string): (r: Result<StringFormat>)
    ensures r.Ok? <==> s == "date" || s == "date-time" || s == "byte" || s == "binary"
    ensures r.Err? ==> r.error == "unexpected string format: " + s
    ensures !r.Panic?
  {
    match s
    case "date" => Ok(Date)
    case "date-time" => Ok(DateTime)
    case "byte" => Ok(Byte)
    case "binary" => Ok(Binary)
    case _ => Err("unexpected string format: " + s)
  }

  /** `Display for StringFormat`: the spelling the `@format` decorator
      carries. */
  function StringFormatName(f: StringFormat): string {
    match f
    case Date => "date"
    case DateTime => "date-time"
    case Byte => "byte"
    case Binary => "binary"
  }

  /** Printing a format and parsing it back gives the same format, and every
      accepted spelling is the printing of what it parses to. */
  lemma StringFormatRoundTrip(f: StringFormat, s: string)
    ensures ParseStringFormat(StringFormatName(f)) == Ok(f)
    ensures ParseStringFormat(s).Ok? ==> StringFormatName(ParseStringFormat(s).value) == s
  {
  }

  datatype IntegerFormat = Int32 | Int64

  /** `IntegerFormat::from_str`. */
  function ParseIntegerFormat(s: string): (r: Result<IntegerFormat>)
    ensures r == Ok(Int32) <==> s == "int32"
    ensures r == Ok(Int64) <==> s == "int64"
    ensures r.Err? <==> s != "int32" && s != "int64"
    ensures r.Err? ==> r.error == "[IntegerFormat::from_str] Unexpected integer format: " + s
  {
    match s
    case "int32" => Ok(Int32)
    case "int64" => Ok(Int64)
    case _ => Err("[IntegerFormat::from_str] Unexpected integer format: " + s)
  }

  datatype NumberFormat = Float | Double

  /** `NumberFormat::from_str`. */
  function ParseNumberFormat(s: string): (r: Result<NumberFormat>)
    ensures r == Ok(Float) <==> s == "float"
    ensures r == Ok(Double) <==> s == "double"
    ensures r.Err? <==> s != "float" && s != "double"
    ensures r.Err? ==> r.error == "[NumberFormat::from_str] Unexpected number format: " + s
  {
    match s
    case "float" => Ok(Float)
    case "double" => Ok(Double)
    case _ => Err("[NumberFormat::from_str] Unexpected number format: " + s)
  }

  datatype StringNode = StringNode(
    title: Option<string>,
    stringEnum: Option<seq<string>>,
    nullable: Option<bool>,
    example: Option<string>,
    description: Option<string>,
    default: Option<string>,
    pattern: Option<string>,
    format: Option<StringFormat>,
    minLength: Option<usize>,
    maxLength: Option<usize>,
    xFaker: Option<string>)

  datatype IntegerNode = IntegerNode(
    title: Option<string>,
    format: Option<IntegerFormat>,
    description: Option<string>,
    default: Option<i64>,
    minimum: Option<i64>,
    maximum: Option<i64>,
    exclusiveMinimum: Option<bool>,
    exclusiveMaximum: Option<bool>,
    nullable: Option<bool>,
    integerEnum: Option<seq<i64>>,
    example: Option<i64>,
    xFaker: Option<string>)

  /** The number node without its floating-point fields (default, minimum,
      maximum, example). */
  datatype NumberNode = NumberNode(
    title: Option<string>,
    format: Option<NumberFormat>,
    description: Option<string>,
    nullable: Option<bool>)

  datatype BooleanNode = BooleanNode(
    title: Option<string>,
    default: Option<bool>,
    description: Option<string>,
    nullable: Option<bool>,
    example: Option<bool>)

  /** A `$ref`: a path to another YAML file, or the name of a component. */
  datatype RefNode = ComponentRef(componentName: string) | FileRef(filePath: string)

  datatype ObjectNode = ObjectNode(
    title: Option<string>,
    properties: seq<PropertyNode>,
    nullable: Option<bool>,
    description: Option<string>,
    example: Option<Mapping>)

  datatype PropertyNode = PropertyNode(key: string, value: DataModelNode, required: bool)

  datatype ArrayNode = ArrayNode(title: Option<string>, items: DataModelNode)

  datatype OneOfNode = OneOfNode(title: Option<string>, items: seq<DataModelNode>)

  datatype AllOfNode = AllOfNode(title: Option<string>, items: seq<DataModelNode>)

  datatype DataModelNode =
    | ArrayModel(arrayNode: ArrayNode)
    | ObjectModel(objectNode: ObjectNode)
    | OneOfModel(oneOfNode: OneOfNode)
    | StringModel(stringNode: StringNode)
    | IntegerModel(integerNode: IntegerNode)
    | NumberModel(numberNode: NumberNode)
    | BooleanModel(booleanNode: BooleanNode)
    | AllOfModel(allOfNode: AllOfNode)
    | RefModel(refNode: RefNode)
  {
    /** `DataModelNode::title`: integer, number, boolean and ref nodes report
        no title even though the first three carry one. */
    function Title(): (r: Option<string>)
      ensures IntegerModel? || NumberModel? || BooleanModel? || RefModel? ==> r.None?
      ensures ArrayModel? ==> r == arrayNode.title
      ensures ObjectModel? ==> r == objectNode.title
      ensures OneOfModel? ==> r == oneOfNode.title
      ensures StringModel? ==> r == stringNode.title
      ensures AllOfModel? ==> r == allOfNode.title
    {
      match this
      case ArrayModel(n) => n.title
      case ObjectModel(n) => n.title
      case OneOfModel(n) => n.title
      case StringModel(n) => n.title
      case AllOfModel(n) => n.title
      case _ => None
    }
  }
}
