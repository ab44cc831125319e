/** Properties of the operation-level parsers and builders. */
module OperationLemmas {
  import opened Wrappers
  import opened Strings
  import opened YamlModel
  import opened SchemaNodes
  import opened SchemaBuilder
  import opened OperationNodes
  import opened SchemaLemmas

  // -------------------------------------------------------- content types

  /** Printing a media type and parsing it back gives the same media type. */
  lemma ContentTypeRoundTrip(c: ContentType)
    ensures ParseContentType(ContentTypeName(c)) == Ok(c)
  {
  }

  /** Exactly four spellings parse, and each is the printing of its value. */
  lemma ContentTypeSpellings(s: string)
    ensures ParseContentType(s).Ok? <==>
      s in ["application/json", "application/x-www-form-urlencoded", "multipart/form-data", "text/plain"]
    ensures ParseContentType(s).Ok? ==> ContentTypeName(ParseContentType(s).value) == s
  {
  }

  /** Distinct media types print differently. */
  lemma ContentTypeNameInjective(c: ContentType, d: ContentType)
    requires ContentTypeName(c) == ContentTypeName(d)
    ensures c == d
  {
    ContentTypeRoundTrip(c);
    ContentTypeRoundTrip(d);
  }

  // ------------------------------------------------------------- statuses

  /** Exactly the eleven listed codes parse. */
  lemma StatusSpellings(s: string)
    ensures ParseResponseStatus(s).Ok? <==> s in STATUS_SPELLINGS
  {
  }

  /** Reading a status back from the decimal string of its code gives the
      status. */
  lemma StatusRoundTrip(st: ResponseStatus)
    ensures ParseResponseStatus(NatToString(StatusCode(st))) == Ok(st)
  {
    var n := StatusCode(st);
    ThreeDigits(n);
  }

  lemma ThreeDigits(n: nat)
    requires 100 <= n < 1000
    ensures NatToString(n) == [DigitChar(n / 100), DigitChar(n / 10 % 10), DigitChar(n % 10)]
  {
    assert NatToString(n / 10) == [DigitChar(n / 100), DigitChar(n / 10 % 10)];
  }

  /** Distinct statuses have distinct codes. */
  lemma StatusCodeInjective(a: ResponseStatus, b: ResponseStatus)
    requires StatusCode(a) == StatusCode(b)
    ensures a == b
  {
    StatusRoundTrip(a);
    StatusRoundTrip(b);
  }

  lemma UnknownStatus()
    ensures ParseResponseStatus("999") == Err("Invalid response status: 999")
  {
  }

  /** Exactly four parameter positions parse. */
  lemma PositionSpellings(s: string)
    ensures ParsePosition(s).Ok? <==> s in ["query", "header", "path", "cookie"]
  {
  }

  // ----------------------------------------------------------- parameters

  /** A key outside the nine allowed ones fails the parameter. */
  lemma ParameterOutsideKey(y: Yaml, k: string)
    requires y.Hash? && forall i :: 0 <= i < |y.entries| ==> y.entries[i].key.Str?
    requires GetValue(y.entries, k).Some? && k !in PARAMETER_KEYS
    ensures BuildParameter(y).Err?
  {
    KeyOutsideAllowedFails(PARAMETER_KEYS, y.entries, k);
  }

  /** `name` is required, and then `in`. */
  lemma ParameterNameAndInRequired(y: Yaml)
    requires y.Hash? && KeyCheck(PARAMETER_KEYS, y.entries).Ok?
    ensures GetString(y.entries, "name").None? ==>
      BuildParameter(y) == Err("[ParameterNode::try_from] Invalid parameter name")
    ensures GetString(y.entries, "name").Some? && GetString(y.entries, "in").None? ==>
      BuildParameter(y) == Err("[ParameterNode::try_from] Invalid parameter position")
  {
  }

  /** An `in` value that is not a position is the position parser's error. */
  lemma ParameterBadPosition(y: Yaml)
    requires y.Hash? && KeyCheck(PARAMETER_KEYS, y.entries).Ok?
    requires GetString(y.entries, "name").Some? && GetString(y.entries, "in").Some?
    requires ParsePosition(GetString(y.entries, "in").value).Err?
    ensures BuildParameter(y) == Err("Invalid parameter position: " + GetString(y.entries, "in").value)
  {
  }

  /** `schema` is required once name and position are known. */
  lemma ParameterSchemaRequired(y: Yaml)
    requires y.Hash? && KeyCheck(PARAMETER_KEYS, y.entries).Ok?
    requires GetString(y.entries, "name").Some? && GetString(y.entries, "in").Some?
    requires ParsePosition(GetString(y.entries, "in").value).Ok?
    requires GetValue(y.entries, "schema").None?
    ensures BuildParameter(y) == Err("[ParameterNode::try_from] Expected schema hash, but not found")
  {
  }

  /** A built parameter passed the key check and the rest of the builder. */
  lemma ParameterFirstStage(y: Yaml)
    requires BuildParameter(y).Ok?
    ensures y.Hash? && KeyCheck(PARAMETER_KEYS, y.entries).Ok?
    ensures ParameterFromMapping(y.entries) == BuildParameter(y)
  {
  }

  /** A parameter built from a mapping had a name and a parsable position. */
  lemma ParameterSecondStage(h: Mapping)
    requires ParameterFromMapping(h).Ok?
    ensures GetString(h, "name").Some? && GetString(h, "in").Some?
    ensures ParsePosition(GetString(h, "in").value).Ok?
    ensures ParameterWithSchema(h, GetString(h, "name").value, ParsePosition(GetString(h, "in").value).value)
            == ParameterFromMapping(h)
  {
  }

  /** The last stage builds the schema and the enum and keeps the rest. */
  lemma ParameterThirdStage(h: Mapping, name: string, position: ParameterPosition)
    requires ParameterWithSchema(h, name, position).Ok?
    ensures var p := ParameterWithSchema(h, name, position).value;
      GetValue(h, "schema").Some? &&
      BuildDataModel(GetValue(h, "schema").value, Some(name + "_schema")) == Ok(p.schema) &&
      ParameterEnum(h) == Ok(p.parameterEnum) &&
      p == ParameterNode(name, position, GetString(h, "description"), GetBool(h, "required"), p.schema, p.parameterEnum)
  {
  }

  /** A built parameter carries the name, position, description and
      required flag of the mapping, its schema is built with the hint
      "{name}_schema", and its enum is the enum builder's outcome. */
  lemma ParameterFields(y: Yaml)
    requires BuildParameter(y).Ok?
    ensures y.Hash? && KeyCheck(PARAMETER_KEYS, y.entries).Ok?
    ensures GetString(y.entries, "name") == Some(BuildParameter(y).value.name)
    ensures GetString(y.entries, "in").Some? &&
      ParsePosition(GetString(y.entries, "in").value) == Ok(BuildParameter(y).value.position)
    ensures BuildParameter(y).value.description == GetString(y.entries, "description")
    ensures BuildParameter(y).value.required == GetBool(y.entries, "required")
    ensures GetValue(y.entries, "schema").Some?
    ensures BuildDataModel(GetValue(y.entries, "schema").value, Some(BuildParameter(y).value.name + "_schema"))
            == Ok(BuildParameter(y).value.schema)
    ensures ParameterEnum(y.entries) == Ok(BuildParameter(y).value.parameterEnum)
  {
    ParameterFirstStage(y);
    ParameterSecondStage(y.entries);
    ParameterThirdStage(y.entries, GetString(y.entries, "name").value, ParsePosition(GetString(y.entries, "in").value).value);
  }

  /** The enum, when present, holds the texts of its items in order:
      strings as they are, integers in decimal. */
  lemma ParameterEnumTexts(y: Yaml)
    requires BuildParameter(y).Ok? && BuildParameter(y).value.parameterEnum.Some?
    ensures y.Hash? && GetValue(y.entries, "enum").Some? && GetValue(y.entries, "enum").value.Array?
    ensures var items := GetValue(y.entries, "enum").value.items;
      var texts := BuildParameter(y).value.parameterEnum.value;
      |texts| == |items| &&
      forall i :: 0 <= i < |items| ==> IsTextEnumItem(items[i]) && texts[i] == EnumItemText(items[i])
  {
    ParameterFields(y);
  }

  /** An enum item that is neither a string nor an integer fails the
      parameter. */
  lemma ParameterEnumBadItem(y: Yaml)
    requires y.Hash? && GetValue(y.entries, "enum").Some? && GetValue(y.entries, "enum").value.Array?
    requires exists i :: 0 <= i < |GetValue(y.entries, "enum").value.items| && !IsTextEnumItem(GetValue(y.entries, "enum").value.items[i])
    ensures !BuildParameter(y).Ok?
  {
    ParameterNeedsEnum(y);
    EnumBadItem(y.entries);
  }

  lemma ParameterNeedsEnum(y: Yaml)
    ensures BuildParameter(y).Ok? ==> y.Hash? && ParameterEnum(y.entries).Ok?
  {
    if BuildParameter(y).Ok? {
      ParameterFields(y);
    }
  }

  lemma EnumBadItem(h: Mapping)
    requires GetValue(h, "enum").Some? && GetValue(h, "enum").value.Array?
    requires exists i :: 0 <= i < |GetValue(h, "enum").value.items| && !IsTextEnumItem(GetValue(h, "enum").value.items[i])
    ensures !ParameterEnum(h).Ok?
  {
    assert !TextEnumItems(GetValue(h, "enum").value.items, PARAMETER_ENUM_BUILDER).Ok?;
  }

  // ------------------------------------------------------------ responses

  /** The key must be a string, and then a known status. */
  lemma ResponseStatusErrors(e: Entry)
    ensures !e.key.Str? ==> BuildResponse(e) == Err("[ResponseNode::try_from] expected a key")
    ensures e.key.Str? && ParseResponseStatus(e.key.str).Err? ==>
      BuildResponse(e) == Err("Invalid response status: " + e.key.str)
  {
  }

  /** The value must be a mapping. */
  lemma ResponseValueNotMap(e: Entry)
    requires e.key.Str? && ParseResponseStatus(e.key.str).Ok? && !e.value.Hash?
    ensures BuildResponse(e) == Err("[ResponseNode::try_from] Expected a hash")
  {
  }

  /** A missing `content` panics, and so does a `content` that has not
      exactly one entry. */
  lemma ResponseContentPanics(e: Entry)
    requires e.key.Str? && ParseResponseStatus(e.key.str).Ok? && e.value.Hash?
    ensures GetHash(e.value.entries, "content").None? ==>
      BuildResponse(e) == Panic("[ResponseNode::try_from] Expected a content")
    ensures GetHash(e.value.entries, "content").Some? && |GetHash(e.value.entries, "content").value| != 1 ==>
      BuildResponse(e) == Panic(CONTENT_COUNT_PANIC)
  {
  }

  /** A built response has the status of its key, one content entry, and
      a content type exactly when that entry's key is a known media type. */
  lemma ResponseFields(e: Entry)
    requires BuildResponse(e).Ok?
    ensures e.key.Str? && ParseResponseStatus(e.key.str) == Ok(BuildResponse(e).value.status)
    ensures e.value.Hash? && GetHash(e.value.entries, "content").Some?
    ensures |GetHash(e.value.entries, "content").value| == 1
    ensures var k := GetHash(e.value.entries, "content").value[0].key;
      BuildResponse(e).value.contentType.Some? <==> k.Str? && ParseContentType(k.str).Ok?
    ensures BuildResponse(e).value.description == GetString(e.value.entries, "description")
  {
  }

  /** A schema the dispatch rejects with `Err` is dropped, not reported. */
  lemma ResponseSchemaErrIsDropped(e: Entry)
    requires BuildResponse(e).Ok?
    requires e.value.Hash? && GetHash(e.value.entries, "content").Some?
    requires var content := GetHash(e.value.entries, "content").value;
      |content| == 1 && content[0].value.Hash? &&
      GetValue(content[0].value.entries, "schema").Some? &&
      FromYaml(GetValue(content[0].value.entries, "schema").value).Err?
    ensures BuildResponse(e).value.schema.None?
  {
  }

  /** A panic inside the schema builder aborts the response. */
  lemma ResponseSchemaPanicPropagates(e: Entry)
    requires e.key.Str? && ParseResponseStatus(e.key.str).Ok? && e.value.Hash?
    requires GetHash(e.value.entries, "content").Some?
    requires var content := GetHash(e.value.entries, "content").value;
      |content| == 1 && content[0].value.Hash? &&
      GetValue(content[0].value.entries, "schema").Some? &&
      FromYaml(GetValue(content[0].value.entries, "schema").value).Panic?
    ensures BuildResponse(e).Panic?
  {
  }

  /** Entry `i` is the last of `h` whose key is `key`. */
  ghost predicate LastWithKey(h: Mapping, key: Yaml, i: int) {
    0 <= i < |h| && h[i].key == key && forall j :: i < j < |h| ==> h[j].key != key
  }

  /** The examples are defined exactly when every key is a string. */
  lemma {:induction false} ExampleEntriesDefined(h: Mapping)
    ensures ExampleEntries(h).Some? <==> forall i :: 0 <= i < |h| ==> h[i].key.Str?
    decreases |h|
  {
    if h != [] {
      var init := h[..|h| - 1];
      ExampleEntriesDefined(init);
      assert forall i :: 0 <= i < |init| ==> init[i] == h[i];
    }
  }

  /** The examples hold exactly the keys of the mapping. */
  lemma {:induction false} ExampleEntriesKeys(h: Mapping)
    requires ExampleEntries(h).Some?
    ensures forall k :: k in ExampleEntries(h).value <==> exists i :: 0 <= i < |h| && h[i].key == Str(k)
    decreases |h|
  {
    if h != [] {
      var init := h[..|h| - 1];
      ExampleEntriesKeys(init);
      assert forall i :: 0 <= i < |init| ==> init[i] == h[i];
      forall k | exists i :: 0 <= i < |h| && h[i].key == Str(k)
        ensures k in ExampleEntries(h).value
      {
        var i :| 0 <= i < |h| && h[i].key == Str(k);
        if i < |init| {
          assert init[i].key == Str(k);
        }
      }
    }
  }

  /** Each key of the examples carries the value of its last entry. */
  lemma {:induction false} ExampleEntriesLastWins(h: Mapping)
    requires ExampleEntries(h).Some?
    ensures forall k :: k in ExampleEntries(h).value ==>
      exists i :: LastWithKey(h, Str(k), i) && ExampleEntries(h).value[k] == h[i].value
    decreases |h|
  {
    if h != [] {
      var init := h[..|h| - 1];
      var last := h[|h| - 1];
      ExampleEntriesLastWins(init);
      var m := ExampleEntries(h).value;
      forall k | k in m
        ensures exists i :: LastWithKey(h, Str(k), i) && m[k] == h[i].value
      {
        if last.key == Str(k) {
          assert LastWithKey(h, Str(k), |h| - 1);
        } else {
          var i :| LastWithKey(init, Str(k), i) && ExampleEntries(init).value[k] == init[i].value;
          assert LastWithKey(h, Str(k), i);
        }
      }
    }
  }
}
