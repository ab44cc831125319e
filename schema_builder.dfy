/** The schema-object builders of `openapi_node/src/data_model_node`: each
    `try_from` checks the shape and the allowed keys of one YAML mapping and
    decides the node's title; `DataModelNode::try_from` tries them in a fixed
    order and keeps the first that does not return `Err`. A panic in any
    builder aborts the whole dispatch.

    The builders are mutually recursive through the nested schemas (array
    items, object properties, oneOf/allOf members); every recursive call is
    on a strict part of the YAML value being built. */
module SchemaBuilder {
  import opened Wrappers
  import opened Strings
  import opened YamlModel
  import opened SchemaNodes

  const OBJECT_KEYS: seq<string> :=
    ["type", "title", "properties", "required", "description", "nullable", "x-examples", "example"]

  const STRING_KEYS: seq<string> :=
    ["type", "title", "enum", "nullable", "example", "description", "default", "pattern",
     "format", "minLength", "maxLength", "x-faker"]

  const INTEGER_KEYS: seq<string> :=
    ["type", "format", "description", "default", "minimum", "maximum", "exclusiveMinimum",
     "exclusiveMaximum", "nullable", "enum", "example", "x-faker"]

  const NUMBER_KEYS: seq<string> :=
    ["type", "format", "description", "default", "minimum", "maximum", "nullable", "example"]

  const BOOLEAN_KEYS: seq<string> := ["type", "description", "default", "nullable", "example"]

  const COMPONENT_PREFIX: string := "#/components/schemas/"

  const STRING_ENUM_BUILDER: string := "try_build_string_enum_from_yaml"

  /** Rust's `{:?}` of an `Option<String>` (escapes inside the string are
      not modelled). */
  function DebugOption(o: Option<string>): string {
    match o
    case None => "None"
    case Some(s) => "Some(\"" + s + "\")"
  }

  // ---------------------------------------------------------------- enums

  predicate IsTextEnumItem(y: Yaml) {
    y.Str? || y.Integer?
  }

  /** One enum item as text: a string as it is, an integer in decimal. */
  function EnumItemText(y: Yaml): string
    requires IsTextEnumItem(y)
  {
    if y.Str? then y.str else IntToString(y.intValue)
  }

  /** The items of a string-or-integer enum, in order; the first item of
      another kind is an error. `builder` names the source function in the
      error text. */
  function TextEnumItems(items: seq<Yaml>, builder: string): (r: Result<seq<string>>)
    ensures !r.Panic?
    ensures r.Ok? <==> forall i :: 0 <= i < |items| ==> IsTextEnumItem(items[i])
    ensures r.Ok? ==> (|r.value| == |items| &&
      forall i :: 0 <= i < |items| ==> r.value[i] == EnumItemText(items[i]))
    ensures r.Err? ==> r.error == "[" + builder + "] Expected string or integer"
    decreases |items|
  {
    if items == [] then Ok([])
    else if !IsTextEnumItem(items[0]) then Err("[" + builder + "] Expected string or integer")
    else
      var rest :- TextEnumItems(items[1..], builder);
      assert forall i :: 1 <= i < |items| ==> items[i] == items[1..][i - 1];
      Ok([EnumItemText(items[0])] + rest)
  }

  /** `try_build_string_enum_from_yaml` and `try_build_parameter_enum_from_yaml`:
      the value must be a list. */
  function TextEnum(y: Yaml, builder: string): (r: Result<seq<string>>)
    ensures !y.Array? ==> r == Err("[" + builder + "] Expected hash")
    ensures y.Array? ==> r == TextEnumItems(y.items, builder)
  {
    if y.Array? then TextEnumItems(y.items, builder) else Err("[" + builder + "] Expected hash")
  }

  /** The loop of the enum builders, pushing one text per item. */
  method BuildTextEnum(y: Yaml, builder: string) returns (r: Result<seq<string>>)
    ensures r == TextEnum(y, builder)
  {
    if !y.Array? {
      return Err("[" + builder + "] Expected hash");
    }
    var items := y.items;
    var result: seq<string> := [];
    var i := 0;
    while i < |items|
      invariant 0 <= i <= |items|
      invariant |result| == i
      invariant forall j :: 0 <= j < i ==> IsTextEnumItem(items[j]) && result[j] == EnumItemText(items[j])
    {
      match items[i] {
        case Str(s) =>
          result := result + [s];
        case Integer(v) =>
          result := result + [IntToString(v)];
        case _ =>
          return Err("[" + builder + "] Expected string or integer");
      }
      i := i + 1;
    }
    assert TextEnumItems(items, builder).value == result;
    r := Ok(result);
  }

  /** The items of an integer enum, in order; any non-integer item is an
      error. */
  function IntegerEnumItems(items: seq<Yaml>): (r: Result<seq<i64>>)
    ensures !r.Panic?
    ensures r.Ok? <==> forall i :: 0 <= i < |items| ==> items[i].Integer?
    ensures r.Ok? ==> (|r.value| == |items| &&
      forall i :: 0 <= i < |items| ==> items[i] == Integer(r.value[i]))
    ensures r.Err? ==> r.error == "[try_build_integer_enum_from_yaml] Expected string or integer"
    decreases |items|
  {
    if items == [] then Ok([])
    else if !items[0].Integer? then Err("[try_build_integer_enum_from_yaml] Expected string or integer")
    else
      var rest :- IntegerEnumItems(items[1..]);
      assert forall i :: 1 <= i < |items| ==> items[i] == items[1..][i - 1];
      Ok([items[0].intValue] + rest)
  }

  /** `try_build_integer_enum_from_yaml`. */
  function IntegerEnum(y: Yaml): (r: Result<seq<i64>>)
    ensures !y.Array? ==> r == Err("[try_build_integer_enum_from_yaml] Expected hash")
    ensures y.Array? ==> r == IntegerEnumItems(y.items)
  {
    if y.Array? then IntegerEnumItems(y.items)
    else Err("[try_build_integer_enum_from_yaml] Expected hash")
  }

  method BuildIntegerEnum(y: Yaml) returns (r: Result<seq<i64>>)
    ensures r == IntegerEnum(y)
  {
    if !y.Array? {
      return Err("[try_build_integer_enum_from_yaml] Expected hash");
    }
    var items := y.items;
    var result: seq<i64> := [];
    var i := 0;
    while i < |items|
      invariant 0 <= i <= |items|
      invariant |result| == i
      invariant forall j :: 0 <= j < i ==> items[j] == Integer(result[j])
    {
      if !items[i].Integer? {
        return Err("[try_build_integer_enum_from_yaml] Expected string or integer");
      }
      result := result + [items[i].intValue];
      i := i + 1;
    }
    assert IntegerEnumItems(items).value == result;
    r := Ok(result);
  }

  /** An optional value that, when present, must convert without error
      (Rust's `map(...).transpose()?`). */
  function Transposed<T>(o: Option<Result<T>>): Result<Option<T>> {
    match o
    case None => Ok(None)
    case Some(Ok(v)) => Ok(Some(v))
    case Some(Err(e)) => Err(e)
    case Some(Panic(p)) => Panic(p)
  }

  function OptionalEnum(h: Mapping): Result<Option<seq<string>>> {
    Transposed(if GetValue(h, "enum").Some? then Some(TextEnum(GetValue(h, "enum").value, STRING_ENUM_BUILDER)) else None)
  }

  function OptionalStringFormat(h: Mapping): Result<Option<StringFormat>> {
    match GetString(h, "format")
    case None => Ok(None)
    case Some(s) =>
      match ParseStringFormat(s)
      case Ok(f) => Ok(Some(f))
      case Err(e) => Err("[StringNode::try_from] " + e)
      case Panic(p) => Panic(p)
  }

  function OptionalUsize(h: Mapping, key: string): Option<usize> {
    if GetI64(h, key).Some? then Some(AsUsize(GetI64(h, key).value)) else None
  }

  // ------------------------------------------------------ leaf builders

  /** `StringNode::try_from`. */
  function BuildString(y: Yaml, key: Option<string>): (r: Result<StringNode>)
    ensures !y.Hash? ==> r == Err("[StringNode::try_from] Expected hash")
    ensures y.Hash? && GetString(y.entries, "type") != Some("string") ==>
      r == Err("[StringNode::try_from] Expected type: string")
    ensures y.Hash? && GetString(y.entries, "type") == Some("string") && !KeyCheck(STRING_KEYS, y.entries).Ok? ==>
      r == KeyCheck(STRING_KEYS, y.entries).PropagateFailure()
    ensures (y.Hash? && GetString(y.entries, "type") == Some("string") && KeyCheck(STRING_KEYS, y.entries).Ok? &&
      GetValue(y.entries, "enum").Some? && !TextEnum(GetValue(y.entries, "enum").value, STRING_ENUM_BUILDER).Ok?) ==>
      r.Err? && r == TextEnum(GetValue(y.entries, "enum").value, STRING_ENUM_BUILDER).PropagateFailure()
    ensures (y.Hash? && GetString(y.entries, "type") == Some("string") && KeyCheck(STRING_KEYS, y.entries).Ok? &&
      (GetValue(y.entries, "enum").Some? ==> TextEnum(GetValue(y.entries, "enum").value, STRING_ENUM_BUILDER).Ok?) &&
      GetString(y.entries, "format").Some? && ParseStringFormat(GetString(y.entries, "format").value).Err?) ==>
      r == Err("[StringNode::try_from] " + ParseStringFormat(GetString(y.entries, "format").value).error)
    ensures r.Panic? <==> y.Hash? && GetString(y.entries, "type") == Some("string") && KeyCheck(STRING_KEYS, y.entries).Panic?
    ensures r.Ok? ==> (y.Hash? && GetString(y.entries, "type") == Some("string") &&
      KeyCheck(STRING_KEYS, y.entries).Ok?)
    ensures r.Ok? ==> r.value.title == key.Or(GetString(y.entries, "title"))
    ensures r.Ok? ==> (r.value.stringEnum.Some? <==> GetValue(y.entries, "enum").Some?)
    ensures r.Ok? && r.value.stringEnum.Some? ==>
      TextEnum(GetValue(y.entries, "enum").value, STRING_ENUM_BUILDER) == Ok(r.value.stringEnum.value)
    ensures r.Ok? ==> (r.value.format.Some? <==> GetString(y.entries, "format").Some?)
    ensures r.Ok? && r.value.format.Some? ==>
      ParseStringFormat(GetString(y.entries, "format").value) == Ok(r.value.format.value)
    ensures r.Ok? ==> (r.value.minLength == OptionalUsize(y.entries, "minLength") &&
      r.value.maxLength == OptionalUsize(y.entries, "maxLength"))
  {
    if !y.Hash? then Err("[StringNode::try_from] Expected hash")
    else
      var h := y.entries;
      if GetString(h, "type") != Some("string") then Err("[StringNode::try_from] Expected type: string")
      else
        var _ :- KeyCheck(STRING_KEYS, h);
        var stringEnum :- OptionalEnum(h);
        var format :- OptionalStringFormat(h);
        Ok(StringNode(
          title := key.Or(GetString(h, "title")),
          stringEnum := stringEnum,
          nullable := GetBool(h, "nullable"),
          example := GetString(h, "example"),
          description := GetString(h, "description"),
          default := GetString(h, "default"),
          pattern := GetString(h, "pattern"),
          format := format,
          minLength := OptionalUsize(h, "minLength"),
          maxLength := OptionalUsize(h, "maxLength"),
          xFaker := GetString(h, "x-faker")))
  }

  /** The panic message of `expect` on a failed integer-format parse. */
  function IntegerFormatPanic(e: string): string {
    "[IntegerNode::try_from] Expected integer format: \"" + e + "\""
  }

  function OptionalIntegerEnum(h: Mapping): Result<Option<seq<i64>>> {
    Transposed(if GetValue(h, "enum").Some? then Some(IntegerEnum(GetValue(h, "enum").value)) else None)
  }

  /** `IntegerNode::try_from`: an unknown format panics instead of failing. */
  function BuildInteger(y: Yaml, key: Option<string>): (r: Result<IntegerNode>)
    ensures !y.Hash? ==> r == Err("[IntegerNode::try_from] Expected hash")
    ensures y.Hash? && GetString(y.entries, "type") != Some("integer") ==>
      r == Err("[IntegerNode::try_from] Expected type: integer, got: " + DebugOption(GetString(y.entries, "type")))
    ensures y.Hash? && GetString(y.entries, "type") == Some("integer") && !KeyCheck(INTEGER_KEYS, y.entries).Ok? ==>
      r == KeyCheck(INTEGER_KEYS, y.entries).PropagateFailure()
    ensures (y.Hash? && GetString(y.entries, "type") == Some("integer") && KeyCheck(INTEGER_KEYS, y.entries).Ok? &&
      GetString(y.entries, "format").Some? && ParseIntegerFormat(GetString(y.entries, "format").value).Err?) ==>
      r.Panic?
    ensures (y.Hash? && GetString(y.entries, "type") == Some("integer") && KeyCheck(INTEGER_KEYS, y.entries).Ok? &&
      (GetString(y.entries, "format").None? || ParseIntegerFormat(GetString(y.entries, "format").value).Ok?) &&
      GetValue(y.entries, "enum").Some? && !IntegerEnum(GetValue(y.entries, "enum").value).Ok?) ==>
      r.Err? && r == IntegerEnum(GetValue(y.entries, "enum").value).PropagateFailure()
    ensures r.Ok? ==> (y.Hash? && GetString(y.entries, "type") == Some("integer") &&
      KeyCheck(INTEGER_KEYS, y.entries).Ok?)
  {
    if !y.Hash? then Err("[IntegerNode::try_from] Expected hash")
    else
      var h := y.entries;
      if GetString(h, "type") != Some("integer") then
        Err("[IntegerNode::try_from] Expected type: integer, got: " + DebugOption(GetString(h, "type")))
      else
        var _ :- KeyCheck(INTEGER_KEYS, h);
        var format :-
          match GetString(h, "format")
          case None => Ok(None)
          case Some(s) =>
            (match ParseIntegerFormat(s)
             case Ok(f) => Ok(Some(f))
             case Err(e) => Panic(IntegerFormatPanic(e))
             case Panic(p) => Panic(p));
        var integerEnum :- OptionalIntegerEnum(h);
        Ok(IntegerNode(
          title := key.Or(GetString(h, "title")),
          format := format,
          description := GetString(h, "description"),
          default := GetI64(h, "default"),
          minimum := GetI64(h, "minimum"),
          maximum := GetI64(h, "maximum"),
          exclusiveMinimum := GetBool(h, "exclusiveMinimum"),
          exclusiveMaximum := GetBool(h, "exclusiveMaximum"),
          nullable := GetBool(h, "nullable"),
          integerEnum := integerEnum,
          example := GetI64(h, "example"),
          xFaker := GetString(h, "x-faker")))
  }

  /** `NumberNode::try_from` (type, key and format checks; floats left out). */
  function BuildNumber(y: Yaml, key: Option<string>): (r: Result<NumberNode>)
    ensures !y.Hash? ==> r == Err("[NumberNode::try_from] expected hash")
    ensures y.Hash? && GetString(y.entries, "type") != Some("number") ==>
      r == Err("[NumberNode::try_from] expected type: number, got: " + DebugOption(GetString(y.entries, "type")))
    ensures y.Hash? && GetString(y.entries, "type") == Some("number") && !KeyCheck(NUMBER_KEYS, y.entries).Ok? ==>
      r == KeyCheck(NUMBER_KEYS, y.entries).PropagateFailure()
    ensures (y.Hash? && GetString(y.entries, "type") == Some("number") && KeyCheck(NUMBER_KEYS, y.entries).Ok? &&
      GetString(y.entries, "format").Some? && ParseNumberFormat(GetString(y.entries, "format").value).Err?) ==>
      r == Err("[NumberNode::try_from] " + ParseNumberFormat(GetString(y.entries, "format").value).error)
    ensures r.Ok? ==> (y.Hash? && GetString(y.entries, "type") == Some("number") &&
      KeyCheck(NUMBER_KEYS, y.entries).Ok?)
    ensures r.Ok? ==> r.value.title == key.Or(GetString(y.entries, "title"))
    ensures r.Ok? ==> (r.value.format.Some? <==> GetString(y.entries, "format").Some?)
    ensures r.Ok? && r.value.format.Some? ==>
      ParseNumberFormat(GetString(y.entries, "format").value) == Ok(r.value.format.value)
  {
    if !y.Hash? then Err("[NumberNode::try_from] expected hash")
    else
      var h := y.entries;
      if GetString(h, "type") != Some("number") then
        Err("[NumberNode::try_from] expected type: number, got: " + DebugOption(GetString(h, "type")))
      else
        var _ :- KeyCheck(NUMBER_KEYS, h);
        var format :-
          match GetString(h, "format")
          case None => Ok(None)
          case Some(s) =>
            (match ParseNumberFormat(s)
             case Ok(f) => Ok(Some(f))
             case Err(e) => Err("[NumberNode::try_from] " + e)
             case Panic(p) => Panic(p));
        Ok(NumberNode(
          title := key.Or(GetString(h, "title")),
          format := format,
          description := GetString(h, "description"),
          nullable := GetBool(h, "nullable")))
  }

  /** `BooleanNode::try_from`. */
  function BuildBoolean(y: Yaml, key: Option<string>): (r: Result<BooleanNode>)
    ensures !y.Hash? ==> r == Err("[BooleanNode::try_from] Expected a hash")
    ensures y.Hash? && GetString(y.entries, "type") != Some("boolean") ==>
      r == Err("[BooleanNode::try_from] Expected boolean, got " + DebugOption(GetString(y.entries, "type")))
    ensures y.Hash? && GetString(y.entries, "type") == Some("boolean") ==>
      (r.Ok? <==> KeyCheck(BOOLEAN_KEYS, y.entries).Ok?) &&
      (r.Panic? <==> KeyCheck(BOOLEAN_KEYS, y.entries).Panic?)
    ensures r.Ok? ==> r.value.title == key.Or(GetString(y.entries, "title"))
    ensures r.Ok? ==> (r.value.default == GetBool(y.entries, "default") &&
      r.value.nullable == GetBool(y.entries, "nullable") && r.value.example == GetBool(y.entries, "example"))
  {
    if !y.Hash? then Err("[BooleanNode::try_from] Expected a hash")
    else
      var h := y.entries;
      if GetString(h, "type") != Some("boolean") then
        Err("[BooleanNode::try_from] Expected boolean, got " + DebugOption(GetString(h, "type")))
      else
        var _ :- KeyCheck(BOOLEAN_KEYS, h);
        Ok(BooleanNode(
          title := key.Or(GetString(h, "title")),
          default := GetBool(h, "default"),
          description := GetString(h, "description"),
          nullable := GetBool(h, "nullable"),
          example := GetBool(h, "example")))
  }

  /** `RefNode::try_from`: a path ending in ".yaml" is a file reference;
      anything else names a component, with every occurrence of the
      components prefix removed. */
  function BuildRef(y: Yaml, key: Option<string>): (r: Result<RefNode>)
    ensures !r.Panic?
    ensures !y.Hash? ==> r == Err("[RefNode::try_from] Expected hash")
    ensures y.Hash? && GetString(y.entries, "$ref").None? ==> r == Err("[RefNode::try_from] $ref is required")
    ensures r.Ok? <==> y.Hash? && GetString(y.entries, "$ref").Some?
    ensures r.Ok? ==> (r.value.FileRef? <==> EndsWith(GetString(y.entries, "$ref").value, ".yaml"))
    ensures r.Ok? && r.value.FileRef? ==> r.value.filePath == GetString(y.entries, "$ref").value
    ensures r.Ok? && r.value.ComponentRef? ==>
      r.value.componentName == ReplaceAll(GetString(y.entries, "$ref").value, COMPONENT_PREFIX, "")
  {
    if !y.Hash? then Err("[RefNode::try_from] Expected hash")
    else
      match GetString(y.entries, "$ref")
      case None => Err("[RefNode::try_from] $ref is required")
      case Some(path) =>
        if EndsWith(path, ".yaml") then Ok(FileRef(path))
        else Ok(ComponentRef(ReplaceAll(path, COMPONENT_PREFIX, "")))
  }

  /** `build_ref_node` of the command-line parser: the ".yaml" suffix is
      tested first, then the components prefix; any other string names the
      component as it is. */
  function BuildRefNodeCli(h: Mapping): (r: Option<DataModelNode>)
    ensures r.None? <==> GetString(h, "$ref").None?
    ensures r.Some? ==> r.value.RefModel?
    ensures r.Some? && EndsWith(GetString(h, "$ref").value, ".yaml") ==>
      r.value.refNode == FileRef(GetString(h, "$ref").value)
    ensures r.Some? && !EndsWith(GetString(h, "$ref").value, ".yaml") && !StartsWith(GetString(h, "$ref").value, COMPONENT_PREFIX) ==>
      r.value.refNode == ComponentRef(GetString(h, "$ref").value)
    ensures r.Some? && !EndsWith(GetString(h, "$ref").value, ".yaml") && StartsWith(GetString(h, "$ref").value, COMPONENT_PREFIX) ==>
      r.value.refNode == ComponentRef(ReplaceAll(GetString(h, "$ref").value, COMPONENT_PREFIX, ""))
  {
    match GetString(h, "$ref")
    case None => None
    case Some(path) =>
      if EndsWith(path, ".yaml") then Some(RefModel(FileRef(path)))
      else if StartsWith(path, COMPONENT_PREFIX) then Some(RefModel(ComponentRef(ReplaceAll(path, COMPONENT_PREFIX, ""))))
      else Some(RefModel(ComponentRef(path)))
  }

  // ------------------------------------------- recursive builders

  /** The names listed under `required`; an item that is not a string
      contributes the empty name (`unwrap_or_default`). */
  function RequiredKeys(h: Mapping): set<string> {
    var items := GetVec(h, "required").GetOr([]);
    set i | 0 <= i < |items| :: items[i].AsStr().GetOr("")
  }

  /** The properties with `required` set from the required names. */
  function WithRequiredFlags(props: seq<PropertyNode>, required: set<string>): (r: seq<PropertyNode>)
    ensures |r| == |props|
    ensures forall j :: 0 <= j < |r| ==>
      r[j].key == props[j].key && r[j].value == props[j].value && (r[j].required <==> props[j].key in required)
  {
    seq(|props|, j requires 0 <= j < |props| => props[j].(required := props[j].key in required))
  }

  /** The `iter_mut` loop of `ObjectNode::try_from` that sets each
      property's `required` flag. */
  method MarkRequired(props: seq<PropertyNode>, required: set<string>) returns (r: seq<PropertyNode>)
    ensures r == WithRequiredFlags(props, required)
  {
    r := props;
    var i := 0;
    while i < |r|
      invariant 0 <= i <= |r| == |props|
      invariant forall j :: 0 <= j < i ==> r[j] == props[j].(required := props[j].key in required)
      invariant forall j :: i <= j < |r| ==> r[j] == props[j]
    {
      r := r[i := r[i].(required := r[i].key in required)];
      i := i + 1;
    }
  }

  /** `DataModelNode::try_from`: the builders are tried in order and the
      first that does not return `Err` decides; if all fail, the `$ref`
      builder's error is returned. */
  function BuildDataModel(y: Yaml, key: Option<string>): (r: Result<DataModelNode>)
    ensures !Attempt(y, key, 0).Err? ==> r == Attempt(y, key, 0)
    ensures r.Err? ==> r == Attempt(y, key, BUILDER_COUNT - 1)
    ensures r.Err? ==> !y.Hash? || GetString(y.entries, "$ref").None?
    decreases y, 3, 0
  {
    var r := DispatchFrom(y, key, 0);
    assert r.Err? ==> !y.Hash? || GetString(y.entries, "$ref").None? by {
      if r.Err? {
        assert Attempt(y, key, BUILDER_COUNT - 1) == LiftRef(BuildRef(y, key));
      }
    }
    r
  }

  /** `TryFrom<&Yaml> for DataModelNode`: a bare YAML value is built with no
      title hint. */
  function FromYaml(y: Yaml): (r: Result<DataModelNode>)
    ensures r == BuildDataModel(y, None)
  {
    BuildDataModel(y, None)
  }

  /** The number of builders the dispatch tries. */
  const BUILDER_COUNT: nat := 9

  /** The `or_else` chain from builder `i` on: a builder's `Err` passes on
      to the next one; the last builder's result is final. */
  function DispatchFrom(y: Yaml, key: Option<string>, i: nat): (r: Result<DataModelNode>)
    requires i < BUILDER_COUNT
    ensures !Attempt(y, key, i).Err? ==> r == Attempt(y, key, i)
    ensures r.Err? ==> r == Attempt(y, key, BUILDER_COUNT - 1)
    decreases y, 2, BUILDER_COUNT - i
  {
    var r := Attempt(y, key, i);
    if r.Err? && i + 1 < BUILDER_COUNT then DispatchFrom(y, key, i + 1) else r
  }

  /** Builder `i` of the dispatch, in the order object, oneOf, allOf, array,
      string, integer, number, boolean, `$ref`. */
  function Attempt(y: Yaml, key: Option<string>, i: nat): (r: Result<DataModelNode>)
    requires i < BUILDER_COUNT
    decreases y, 1, 1
  {
    match i
    case 0 => LiftObject(BuildObject(y, key))
    case 1 => LiftOneOf(BuildOneOf(y, key))
    case 2 => LiftAllOf(BuildAllOf(y, key))
    case 3 => LiftArray(BuildArray(y, key))
    case 4 => LiftString(BuildString(y, key))
    case 5 => LiftInteger(BuildInteger(y, key))
    case 6 => LiftNumber(BuildNumber(y, key))
    case 7 => LiftBoolean(BuildBoolean(y, key))
    case _ => LiftRef(BuildRef(y, key))
  }

  /** `ObjectNode::try_from`. */
  function BuildObject(y: Yaml, key: Option<string>): (r: Result<ObjectNode>)
    ensures !y.Hash? ==> r == Err("[ObjectNode::try_from] Expected hash")
    ensures y.Hash? && GetString(y.entries, "type") != Some("object") && GetHash(y.entries, "properties").None? ==>
      r == Err("[ObjectNode::try_from] Expected type to be object, found: " + GetString(y.entries, "type").GetOr(""))
    ensures (y.Hash? && (GetString(y.entries, "type") == Some("object") || GetHash(y.entries, "properties").Some?) &&
      !KeyCheck(OBJECT_KEYS, y.entries).Ok?) ==>
      r == KeyCheck(OBJECT_KEYS, y.entries).PropagateFailure()
    ensures (y.Hash? && GetString(y.entries, "type") == Some("object") && GetHash(y.entries, "properties").None? &&
      KeyCheck(OBJECT_KEYS, y.entries).Ok?) ==>
      r == Panic("[ObjectNode::try_from] Expected properties")
    ensures r.Ok? ==> y.Hash? && GetHash(y.entries, "properties").Some? && KeyCheck(OBJECT_KEYS, y.entries).Ok?
    decreases y, 1, 0
  {
    if !y.Hash? then Err("[ObjectNode::try_from] Expected hash")
    else
      var h := y.entries;
      var typeName := GetString(h, "type");
      var properties := GetHash(h, "properties");
      if typeName != Some("object") && properties.None? then
        Err("[ObjectNode::try_from] Expected type to be object, found: " + typeName.GetOr(""))
      else
        var _ :- KeyCheck(OBJECT_KEYS, h);
        if properties.None? then Panic("[ObjectNode::try_from] Expected properties")
        else
          var props :- Collect(PropertyResults(properties.value));
          var example := GetHash(h, "example");
          var xExamples := GetHash(h, "x-examples");
          if example.Some? && xExamples.Some? then
            Err("[ObjectNode::try_from] Expected only one of example or x-examples")
          else
            Ok(ObjectNode(
              title := key.Or(GetString(h, "title")),
              properties := WithRequiredFlags(props, RequiredKeys(h)),
              nullable := GetBool(h, "nullable"),
              description := GetString(h, "description"),
              example := example.Or(xExamples)))
  }

  /** `PropertyNode::try_from` for one entry of `properties`: the key must
      be a string, and the value is built with the key as its title hint. */
  function BuildProperty(e: Entry): (r: Result<PropertyNode>)
    ensures !e.key.Str? ==> r == Err("[PropertyNode::try_from] Expected string")
    ensures e.key.Str? ==> (r.Ok? <==> BuildDataModel(e.value, Some(e.key.str)).Ok?)
    ensures e.key.Str? && !r.Ok? ==> r == BuildDataModel(e.value, Some(e.key.str)).PropagateFailure()
    ensures r.Ok? ==>
      && r.value.key == e.key.str
      && !r.value.required
      && BuildDataModel(e.value, Some(e.key.str)) == Ok(r.value.value)
    decreases e, 1, 0
  {
    var name :- (if e.key.Str? then Ok(e.key.str) else Err("[PropertyNode::try_from] Expected string"));
    var value :- BuildDataModel(e.value, Some(name));
    Ok(PropertyNode(name, value, false))
  }

  /** The property of every entry of `properties`, in map order. */
  function PropertyResults(ps: Mapping): (r: seq<Result<PropertyNode>>)
    ensures |r| == |ps|
    ensures forall j :: 0 <= j < |ps| ==> r[j] == BuildProperty(ps[j])
    decreases Hash(ps), 0
  {
    seq(|ps|, j requires 0 <= j < |ps| => BuildProperty(ps[j]))
  }

  /** `ArrayNode::try_from`: no type or key check, only an `items` entry. */
  function BuildArray(y: Yaml, key: Option<string>): (r: Result<ArrayNode>)
    ensures !y.Hash? ==> r == Err("[ArrayNode::try_from] Expected hash")
    ensures y.Hash? && GetValue(y.entries, "items").None? ==> r == Err("[ArrayNode::try_from] Expected items")
    ensures r.Ok? ==> y.Hash? && GetValue(y.entries, "items").Some?
    ensures r.Ok? ==> r.value.title == key.Or(GetString(y.entries, "title"))
    decreases y, 1, 0
  {
    if !y.Hash? then Err("[ArrayNode::try_from] Expected hash")
    else
      var h := y.entries;
      match GetValue(h, "items")
      case None => Err("[ArrayNode::try_from] Expected items")
      case Some(items) =>
        var node :- BuildDataModel(items, key);
        Ok(ArrayNode(key.Or(GetString(h, "title")), node))
  }

  /** `OneOfNode::try_from`. */
  function BuildOneOf(y: Yaml, key: Option<string>): (r: Result<OneOfNode>)
    ensures !y.Hash? ==> r == Err("[OneOfNode::try_from] Expected hash")
    ensures y.Hash? && GetVec(y.entries, "oneOf").None? ==> r == Err("[OneOfNode::try_from] oneOf is required")
    ensures r.Ok? ==> (y.Hash? && GetVec(y.entries, "oneOf").Some? &&
      |r.value.items| == |GetVec(y.entries, "oneOf").value|)
    ensures r.Ok? ==> r.value.title == key.Or(GetString(y.entries, "title"))
    decreases y, 1, 0
  {
    if !y.Hash? then Err("[OneOfNode::try_from] Expected hash")
    else
      var h := y.entries;
      match GetVec(h, "oneOf")
      case None => Err("[OneOfNode::try_from] oneOf is required")
      case Some(items) =>
        var nodes :- Collect(Members(items, key));
        Ok(OneOfNode(key.Or(GetString(h, "title")), nodes))
  }

  /** `AllOfNode::try_from`. */
  function BuildAllOf(y: Yaml, key: Option<string>): (r: Result<AllOfNode>)
    ensures !y.Hash? ==> r == Err("[AllOfNode::try_from] Expected hash")
    ensures y.Hash? && GetVec(y.entries, "allOf").None? ==> r == Err("[AllOfNode::try_from] allOf is required")
    ensures r.Ok? ==> (y.Hash? && GetVec(y.entries, "allOf").Some? &&
      |r.value.items| == |GetVec(y.entries, "allOf").value|)
    ensures r.Ok? ==> r.value.title == key.Or(GetString(y.entries, "title"))
    decreases y, 1, 0
  {
    if !y.Hash? then Err("[AllOfNode::try_from] Expected hash")
    else
      var h := y.entries;
      match GetVec(h, "allOf")
      case None => Err("[AllOfNode::try_from] allOf is required")
      case Some(items) =>
        var nodes :- Collect(Members(items, key));
        Ok(AllOfNode(key.Or(GetString(h, "title")), nodes))
  }

  /** The members of a oneOf/allOf list, in order, each built with the
      same title hint. */
  function Members(items: seq<Yaml>, key: Option<string>): (r: seq<Result<DataModelNode>>)
    ensures |r| == |items|
    ensures forall j :: 0 <= j < |items| ==> r[j] == BuildDataModel(items[j], key)
    decreases Array(items), 0
  {
    seq(|items|, j requires 0 <= j < |items| => BuildDataModel(items[j], key))
  }

  // ------------------------------------------------ dispatch helpers

  function LiftObject(r: Result<ObjectNode>): Result<DataModelNode> {
    match r case Ok(n) => Ok(ObjectModel(n)) case Err(e) => Err(e) case Panic(p) => Panic(p)
  }

  function LiftOneOf(r: Result<OneOfNode>): Result<DataModelNode> {
    match r case Ok(n) => Ok(OneOfModel(n)) case Err(e) => Err(e) case Panic(p) => Panic(p)
  }

  function LiftAllOf(r: Result<AllOfNode>): Result<DataModelNode> {
    match r case Ok(n) => Ok(AllOfModel(n)) case Err(e) => Err(e) case Panic(p) => Panic(p)
  }

  function LiftArray(r: Result<ArrayNode>): Result<DataModelNode> {
    match r case Ok(n) => Ok(ArrayModel(n)) case Err(e) => Err(e) case Panic(p) => Panic(p)
  }

  function LiftString(r: Result<StringNode>): Result<DataModelNode> {
    match r case Ok(n) => Ok(StringModel(n)) case Err(e) => Err(e) case Panic(p) => Panic(p)
  }

  function LiftInteger(r: Result<IntegerNode>): Result<DataModelNode> {
    match r case Ok(n) => Ok(IntegerModel(n)) case Err(e) => Err(e) case Panic(p) => Panic(p)
  }

  function LiftNumber(r: Result<NumberNode>): Result<DataModelNode> {
    match r case Ok(n) => Ok(NumberModel(n)) case Err(e) => Err(e) case Panic(p) => Panic(p)
  }

  function LiftBoolean(r: Result<BooleanNode>): Result<DataModelNode> {
    match r case Ok(n) => Ok(BooleanModel(n)) case Err(e) => Err(e) case Panic(p) => Panic(p)
  }

  function LiftRef(r: Result<RefNode>): Result<DataModelNode> {
    match r case Ok(n) => Ok(RefModel(n)) case Err(e) => Err(e) case Panic(p) => Panic(p)
  }

  /** Member `k` is the first of `rs` that is not `Ok`. */
  ghost predicate FirstFailure<T>(rs: seq<Result<T>>, k: int) {
    0 <= k < |rs| && !rs[k].Ok? && forall j :: 0 <= j < k ==> rs[j].Ok?
  }

  /** `collect::<Result<Vec<_>, _>>()`: every value, in order, when all are
      `Ok`; otherwise the first failure, the point where collecting stops. */
  function Collect<T>(rs: seq<Result<T>>): (r: Result<seq<T>>)
    ensures r.Ok? <==> forall j :: 0 <= j < |rs| ==> rs[j].Ok?
    ensures r.Ok? ==> |r.value| == |rs| && forall j :: 0 <= j < |rs| ==> rs[j] == Ok(r.value[j])
    ensures !r.Ok? ==> exists k :: FirstFailure(rs, k) && r == rs[k].PropagateFailure()
    decreases |rs|
  {
    if rs == [] then Ok([])
    else
      var head :- rs[0];
      var tail := Collect(rs[1..]);
      assert forall j :: 1 <= j < |rs| ==> rs[j] == rs[1..][j - 1];
      if tail.Ok? then Ok([head] + tail.value)
      else
        assert exists k :: FirstFailure(rs, k) && tail == rs[k].PropagateFailure() by {
          var k :| FirstFailure(rs[1..], k) && tail == rs[1..][k].PropagateFailure();
          assert FirstFailure(rs, k + 1);
        }
        tail.PropagateFailure()
  }
}
