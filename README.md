# openapi_yaml_to_tsp: the compiler core in Dafny

This project models the pipeline of `openapi_yaml_to_tsp`. The pipeline
turns a tree of OpenAPI YAML files into TypeSpec files, and the model
covers it from the loaded YAML documents to the TypeSpec syntax tree of
each output file:

- **YAML access** (`yaml.dfy`). A YAML value is a datatype, and a mapping
  is an ordered list of entries. The typed getters of `YamlHash` are
  modelled, as is the key check `check_unexpected_keys`, including its
  loop.
- **Schema builders** (`schema_nodes.dfy`, `schema_builder.dfy`). These
  are the `TryFrom` builders of the data-model nodes:
  - string, integer, number and boolean;
  - object and its properties;
  - array, oneOf, allOf and `$ref`.

  The builders are tied together by the `or_else` dispatch of
  `DataModelNode`. A result has three outcomes:
  - `Ok`;
  - `Err`, a Rust `Err` that the dispatch recovers from;
  - `Panic`, for `panic!`, `expect`, `unwrap` and `assert_eq!`, which
    nothing recovers from.
- **Operation-level parsers** (`operation_nodes.dfy`). These cover media
  types, response statuses, parameter positions, HTTP verbs, and the
  parameter and response builders.
- **The document parser** (`parser.dfy`). It runs rounds of extractors
  over a file's top-level mapping until the mapping is empty, and panics
  on a round that makes no progress.
- **The post-processing passes** (`postprocess.dfy`, and
  `postprocess_older.dfy` for the older map-based snapshot). These are
  `remove_examples`, `merge_parameter_nodes` and
  `replace_file_ref_to_component_ref`. Each is a method of a `Corpus`
  class that rewrites its list of files in place.
- **The compiler environment** (`compiler_env.dfy`). It holds the
  service namespace, the map from component title to defining file, and
  the map from file name to route.
- **The generators.** Each builds a TypeSpec node and collects the
  imports and usings that node needs:
  - models (`model_gen.dfy`);
  - operations (`operation_gen.dfy`);
  - route interfaces (`interface_gen.dfy`);
  - the top-level contents of a file (`type_spec_gen.dfy`);
  - the TypeSpec file itself (`file_gen.dfy`).
- **`compile`** (`compiler.dfy`), which chains all of the above.

Several parts of the original are outside the model and enter it as
parameters:
- the extractors that recognise each kind of top-level node;
- the file system (`Path::parent`, `canonicalize`, `diff_paths`,
  `file_name`);
- the contents builder that the file builder calls.

Loops of the source are `method`s with loop invariants. Each is proved
equal to a recursive specification function, and the properties are
proved about those functions as lemmas. For example:
- the enum builders, the key check and the import collectors;
- the contents builder and the extraction loop;
- the passes over the corpus.

The source comes as several snapshots that do not agree with one another.
Where they differ, the model follows, for each component, the snapshot
listed below:
- the data-model and operation builders of the `openapi_node` crate;
- the post-processing passes of the command-line crate;
- the model generator and the top-level contents builder of the newer
  `src` crate;
- the operation, interface and file builders of the command-line crate.

Lemmas state the points where the snapshots differ:
- `RefSnapshotsDiffer` and `RefSnapshotsAgree`, for the `$ref` builders;
- `EmptyFileFate`, `MixedFileFate` and `ExampleFileFate`, for the two
  versions of `remove_examples`.

One test of the source disagrees with its code, and the model follows the
code. `openapi_node/src/data_model_node/string_node.rs:94` takes the key
hint before the `title` entry. The test at
`openapi_node/src/data_model_node/string_node.rs:160` expects
`"title_value"` for a schema built with the key hint `"key_value"`, and
that schema has no `title` entry at all. `SchemaBuilder.BuildString`
states that the title is the key hint whenever one is given.

## Model

| member | source | states |
|---|---|---|
| Strings.ReplaceCharByNothing | cli/src/type_spec/node_builder/interface_node.rs:12-13 | `replace(c, "")` of a one-character pattern deletes exactly that character and keeps every other character in order (the independent reference is `Strings.Without`) |
| Strings.ReplaceAllAbsent | openapi_node/src/data_model_node/ref_node.rs:22-37 | `str::replace` leaves a string in which the pattern does not occur unchanged |
| Strings.ReplaceAllLeading | openapi_node/src/data_model_node/ref_node.rs:22-37 | a leading occurrence of the pattern is replaced and the scan resumes after it |
| Strings.ReplaceAll | openapi_node/src/data_model_node/ref_node.rs:22-37 | `str::replace` does not lengthen a string when the replacement is no longer than the pattern, and keeps its length when both have the same length |
| Strings.ReplaceAllTrailing | src/type_spec/node_builder/model_node.rs:308-315 | when the pattern's first character does not recur in it, a string ending in the pattern still ends in the replacement after `str::replace` |
| Strings.AsciiUpper | cli/src/type_spec/node_builder/interface_node.rs:12-24 | a lower-case ASCII letter becomes its upper-case letter; any other character is unchanged |
| Strings.NatToString | openapi_node/src/data_model_node/string_node.rs:59-76 | the decimal text of a number is non-empty and made of digits only |
| Strings.NatToStringRoundTrip | openapi_node/src/data_model_node/string_node.rs:59-76 | reading back the decimal text of a natural number gives the number |
| Strings.IntToStringRoundTrip | openapi_node/src/operation_node/parameter_node.rs:52-69 | reading back `i64::to_string` gives the integer |
| Strings.IntToStringInjective | openapi_node/src/operation_node/parameter_node.rs:52-69 | distinct integer enum items become distinct texts |
| YamlModel.Yaml.AsStr | openapi_node/src/common.rs:36-40 | `as_str` is present exactly for a string value and then is that string |
| YamlModel.Yaml.AsBool | openapi_node/src/common.rs:42-44 | `as_bool` is present exactly for a boolean value |
| YamlModel.Yaml.AsI64 | openapi_node/src/common.rs:46-48 | `as_i64` is present exactly for an integer value |
| YamlModel.Yaml.AsVec | openapi_node/src/common.rs:54-56 | `as_vec` is present exactly for a list value |
| YamlModel.Yaml.AsHash | openapi_node/src/common.rs:58-60 | `as_hash` is present exactly for a mapping value |
| YamlModel.Lookup | openapi_node/src/common.rs:62-64 | a lookup finds a value exactly when some entry has the key, and then returns the value of the first such entry |
| YamlModel.GetValue | openapi_node/src/common.rs:62-64 | `get_value` looks the key up as a YAML string |
| YamlModel.GetString | openapi_node/src/common.rs:36-40 | `get_string` is present exactly when the key's value is a string, and then is that string |
| YamlModel.GetBool | openapi_node/src/common.rs:42-44 | `get_bool` is present exactly when the key's value is a boolean |
| YamlModel.GetI64 | openapi_node/src/common.rs:46-48 | `get_i64` is present exactly when the key's value is an integer |
| YamlModel.GetVec | openapi_node/src/common.rs:54-56 | `get_vec` is present exactly when the key's value is a list |
| YamlModel.GetHash | openapi_node/src/common.rs:58-60 | `get_hash` is present exactly when the key's value is a mapping |
| YamlModel.GettersOfAbsentKey | openapi_node/src/common.rs:36-64 | for a key that is absent, every typed getter returns None |
| YamlModel.AsUsize | openapi_node/src/data_model_node/string_node.rs:81-128 | `i64 as usize` is congruent to the value modulo 2^64, and equal to it when the value is non-negative |
| YamlModel.UnexpectedKeys | openapi_node/src/common.rs:7-25 | None exactly when some key is not a string (the source unwraps each key as a string); otherwise a key is listed exactly when some entry has it and it is not allowed |
| YamlModel.UnexpectedKeysAppend | openapi_node/src/common.rs:7-25 | scanning one more entry appends its key when that key is unexpected, so the message keeps map order |
| YamlModel.KeyCheck | openapi_node/src/common.rs:7-25 | passes exactly when every key is an allowed string; panics exactly when some key is not a string; an `Err` carries the message built from the unexpected keys |
| YamlModel.CheckUnexpectedKeys | openapi_node/src/common.rs:7-25 | the loop gives the outcome of `KeyCheck` |
| SchemaNodes.ParseStringFormat | openapi_node/src/data_model_node/string_node.rs:33-41 | exactly the four spellings date, date-time, byte and binary parse; any other fails with `Err` naming it; never panics |
| SchemaNodes.StringFormatRoundTrip | openapi_node/src/data_model_node/string_node.rs:33-41 | printing a format and parsing it back gives the format; every accepted spelling is the printing of what it parses to |
| SchemaNodes.ParseIntegerFormat | openapi_node/src/data_model_node/integer_node.rs:32-41 | "int32" and "int64" give their formats, and anything else fails with `Err` naming it |
| SchemaNodes.ParseNumberFormat | openapi_node/src/data_model_node/number_node.rs:26-35 | "float" and "double" give their formats, and anything else fails with `Err` naming it |
| SchemaNodes.DataModelNode.Title | openapi_node/src/data_model_node/data_model_node.rs:20-32 | string, object, array, oneOf and allOf nodes report their title; the other kinds report none |
| SchemaBuilder.TextEnumItems | openapi_node/src/data_model_node/string_node.rs:59-76 | never panics; succeeds exactly when every item is a string or an integer, and then holds each item's text in order; the error names the builder |
| SchemaBuilder.TextEnum | openapi_node/src/data_model_node/string_node.rs:59-76 | a value that is not a list fails with the builder's error; a list gives the texts of its items |
| SchemaBuilder.BuildTextEnum | openapi_node/src/data_model_node/string_node.rs:59-76 | the push loop gives the outcome of `TextEnum` |
| SchemaBuilder.IntegerEnumItems | openapi_node/src/data_model_node/integer_node.rs:59-75 | never panics; succeeds exactly when every item is an integer, and then lists the integers in order |
| SchemaBuilder.IntegerEnum | openapi_node/src/data_model_node/integer_node.rs:59-75 | a value that is not a list fails; a list gives its integers |
| SchemaBuilder.BuildIntegerEnum | openapi_node/src/data_model_node/integer_node.rs:59-75 | the push loop gives the outcome of `IntegerEnum` |
| SchemaBuilder.BuildString | openapi_node/src/data_model_node/string_node.rs:81-128 | a non-mapping, a wrong `type` and a failed key check each give their error; a bad `enum` gives the enum builder's `Err`, and a bad `format` gives `Err("[StringNode::try_from] " + e)`; it panics exactly when the key check panics on a non-string key; on success the title is the key hint, else `title`; the enum and the format are present exactly when given, and are the parsed ones; minLength and maxLength go through `as usize` |
| SchemaBuilder.BuildInteger | openapi_node/src/data_model_node/integer_node.rs:80-130 | a non-mapping, a wrong `type` and a failed key check each give their error; an unknown format panics instead of failing; with a good format, a bad `enum` gives the enum builder's error, which is an `Err` and so recoverable by the dispatch |
| SchemaBuilder.BuildNumber | openapi_node/src/data_model_node/number_node.rs:52-93 | a non-mapping, a wrong `type`, a failed key check and an unknown format each give their error; on success the title is the key hint, else `title`, and the format is the parsed one exactly when given |
| SchemaBuilder.BuildBoolean | openapi_node/src/data_model_node/boolean_node.rs:17-45 | a non-mapping and a wrong `type` give their errors; a boolean schema builds exactly when the key check over the five boolean keys passes; the title is the key hint, else `title` |
| SchemaBuilder.BuildRef | openapi_node/src/data_model_node/ref_node.rs:22-37 | never panics; builds exactly when the mapping has a `$ref` string; a path ending in ".yaml" stays a file reference with that path; any other becomes a component reference with every components prefix removed |
| SchemaBuilder.BuildRefNodeCli | cli/src/openapi_parser/node/data_model_node/ref_node.rs:21-44 | the command-line builder gives a reference exactly when `$ref` is present; a ".yaml" path is a file reference; a path starting with the components prefix names the component with every occurrence of the prefix removed; any other path names the component as it is |
| SchemaBuilder.WithRequiredFlags | openapi_node/src/data_model_node/object_node.rs:56-107 | the properties keep their keys, values and order, and are required exactly when their key is listed |
| SchemaBuilder.MarkRequired | openapi_node/src/data_model_node/object_node.rs:56-107 | the `iter_mut` loop gives `WithRequiredFlags` |
| SchemaBuilder.BuildObject | openapi_node/src/data_model_node/object_node.rs:56-107 | a non-mapping, a schema with neither `type: object` nor `properties`, a failed key check and a missing `properties` each give their error; success needs `properties` and a passing key check |
| SchemaBuilder.PropertyResults | openapi_node/src/data_model_node/object_node.rs:27-39 | one outcome per property entry, in map order |
| SchemaBuilder.BuildArray | openapi_node/src/data_model_node/array_node.rs:13-29 | a non-mapping and a missing `items` give their errors; the title is the key hint, else `title` |
| SchemaBuilder.BuildOneOf | openapi_node/src/data_model_node/one_of_node.rs:13-27 | a non-mapping and a missing `oneOf` list give their errors; on success there is one member per list item, and the title is the key hint, else `title` |
| SchemaBuilder.BuildAllOf | openapi_node/src/data_model_node/all_of_node.rs:13-27 | a non-mapping and a missing `allOf` list give their errors; on success there is one member per list item, and the title is the key hint, else `title` |
| SchemaBuilder.Collect | openapi_node/src/data_model_node/one_of_node.rs:13-27 | `collect::<Result<Vec<_>, _>>()`: Ok exactly when every outcome is Ok, and then the values in order; otherwise the failure of the first outcome that is not Ok |
| SchemaBuilder.BuildDataModel | openapi_node/src/data_model_node/data_model_node.rs:38-49 | an object build that is not an `Err` decides; an `Err` overall is the `$ref` builder's error, which happens only for a non-mapping or a mapping without a string `$ref` |
| SchemaBuilder.DispatchFrom | openapi_node/src/data_model_node/data_model_node.rs:38-49 | from builder `i` on, a builder that does not return `Err` decides, and an `Err` overall is the last builder's |
| SchemaBuilder.BuildProperty | openapi_node/src/data_model_node/object_node.rs:27-39 | a non-string key is an `Err`; otherwise the property builds exactly when its value builds with the key as title hint, carries that key and value, and starts optional; a failing value passes its failure on |
| SchemaLemmas.DispatchFromPicks | openapi_node/src/data_model_node/data_model_node.rs:38-49 | the `or_else` chain gives the first builder that does not return `Err` |
| SchemaLemmas.DispatchFirstNonErrWins | openapi_node/src/data_model_node/data_model_node.rs:38-49 | the dispatch result is the first non-`Err` builder's result |
| SchemaLemmas.ObjectWins | openapi_node/src/data_model_node/data_model_node.rs:38-49 | a successful object build decides the dispatch |
| SchemaLemmas.DispatchPanicPropagates | openapi_node/src/data_model_node/data_model_node.rs:38-49 | a panic in a builder is not recovered by later builders |
| SchemaLemmas.DispatchFromAllErr | openapi_node/src/data_model_node/data_model_node.rs:38-49 | when every builder from some point on fails, the last builder's error is returned |
| SchemaLemmas.LastAttemptIsRef | openapi_node/src/data_model_node/data_model_node.rs:38-49 | the `$ref` builder is tried last |
| SchemaLemmas.AllFailGivesRefError | openapi_node/src/data_model_node/data_model_node.rs:38-49 | when every builder fails, the dispatch reports the `$ref` builder's error |
| SchemaLemmas.CollectStopsAtFirstFailure | openapi_node/src/data_model_node/all_of_node.rs:13-27 | the first failing member decides a failed collection |
| SchemaLemmas.ObjectFields | openapi_node/src/data_model_node/object_node.rs:56-107 | the title is the hint, else `title`; at most one of `example`/`x-examples`, and that one is the example |
| SchemaLemmas.ObjectPropertiesCollected | openapi_node/src/data_model_node/object_node.rs:56-107 | the properties are the collected properties with the required flags set |
| SchemaLemmas.PropertyBuilt | openapi_node/src/data_model_node/object_node.rs:27-39 | a property has its entry's string key and the schema built with that key as hint, and starts optional |
| SchemaLemmas.CollectedProperties | openapi_node/src/data_model_node/object_node.rs:56-107 | the collected properties keep the count and order of the map |
| SchemaLemmas.ObjectProperties | openapi_node/src/data_model_node/object_node.rs:56-107 | each property comes from its entry, in order, and is required exactly when its key is listed |
| SchemaLemmas.ObjectExampleExclusive | openapi_node/src/data_model_node/object_node.rs:56-107 | `example` together with `x-examples` gives that error |
| SchemaLemmas.NoRequiredListMeansOptional | openapi_node/src/data_model_node/object_node.rs:56-107 | without `required`, every property is optional |
| SchemaLemmas.ArrayItemsWithSameHint | openapi_node/src/data_model_node/array_node.rs:13-29 | the array succeeds exactly when its items do, and its items are built with the same hint |
| SchemaLemmas.OneOfMembers | openapi_node/src/data_model_node/one_of_node.rs:13-27 | Ok exactly when every member builds; the members in order |
| SchemaLemmas.AllOfMembers | openapi_node/src/data_model_node/all_of_node.rs:13-27 | Ok exactly when every member builds; the members in order |
| SchemaLemmas.OneOfFirstFailingMember | openapi_node/src/data_model_node/one_of_node.rs:13-27 | the first failing member's failure is the node's |
| SchemaLemmas.AllOfFirstFailingMember | openapi_node/src/data_model_node/all_of_node.rs:13-27 | the first failing member's failure is the node's |
| SchemaLemmas.KeyOutsideAllowedFails | openapi_node/src/common.rs:7-25 | a string key outside the allowed list fails the check |
| SchemaLemmas.BooleanRejectsTitleKey | openapi_node/src/data_model_node/boolean_node.rs:12-45 | a boolean schema with `title` is refused |
| SchemaLemmas.IntegerRejectsTitleKey | openapi_node/src/data_model_node/integer_node.rs:44-130 | an integer schema with `title` is refused |
| SchemaLemmas.IntegerTitleAndFormat | openapi_node/src/data_model_node/integer_node.rs:80-130 | title from hint else `title`; format present exactly when named |
| SchemaLemmas.IntegerEnumField | openapi_node/src/data_model_node/integer_node.rs:80-130 | enum present exactly when given, and then the parsed integer enum |
| SchemaLemmas.PrefixedNameIsNotYaml | openapi_node/src/data_model_node/ref_node.rs:22-37 | the components prefix never makes a name end in ".yaml" |
| SchemaLemmas.RefNames | openapi_node/src/data_model_node/ref_node.rs:22-37 | a plain name, with or without prefix, names the same component; a ".yaml" path stays a file reference |
| SchemaLemmas.RefTestCases | openapi_node/src/data_model_node/ref_node.rs:47-98 | the three test cases of the source |
| SchemaLemmas.RefSnapshotsAgree | cli/src/openapi_parser/node/data_model_node/ref_node.rs:21-44 | the two `$ref` builders agree on plain, prefixed and ".yaml" paths |
| SchemaLemmas.RefSnapshotsDiffer | cli/src/openapi_parser/node/data_model_node/ref_node.rs:21-44 | they differ on a prefix in the middle of a path |
| OperationNodes.ParseContentType | openapi_node/src/operation_node/content_type.rs:16-26 | never panics; an unknown media type fails with the error that names it |
| OperationNodes.StatusCode | openapi_node/src/operation_node/response_node.rs:34-48 | every status has a code between 200 and 500 |
| OperationNodes.ParseResponseStatus | openapi_node/src/operation_node/response_node.rs:54-69 | never panics; an unknown status fails with "Invalid response status" followed by the text |
| OperationNodes.ParsePosition | openapi_node/src/operation_node/parameter_node.rs:29-37 | never panics; an unknown position fails with "Invalid parameter position" followed by the text |
| OperationNodes.ParseVerb | openapi_node/src/operation_node/operation_node.rs:33-42 | exactly get, post, put, delete and patch parse; anything else fails with the error that names it |
| OperationNodes.BuildParameter | openapi_node/src/operation_node/parameter_node.rs:74-108 | a non-mapping is an `Err`; a failed key check passes on; otherwise the rest of the builder decides |
| OperationNodes.ParameterFromMapping | openapi_node/src/operation_node/parameter_node.rs:81-87 | a missing `name`, a missing `in` and an unknown position each give their `Err`; a built parameter has the given name and the parsed position |
| OperationNodes.ParameterWithSchema | openapi_node/src/operation_node/parameter_node.rs:88-107 | a missing `schema` is an `Err` and a failing schema passes on; a built parameter keeps name, position, description and required, with the schema built under the hint "{name}_schema" and the parsed enum |
| OperationNodes.ExampleEntries | openapi_node/src/operation_node/response_node.rs:72-78 | when the examples exist, every key of the mapping is a string and is among them |
| OperationNodes.BuildExamples | openapi_node/src/operation_node/response_node.rs:72-78 | a non-mapping gives no examples; when they exist every key is a string and is among them |
| OperationNodes.BuildResponse | openapi_node/src/operation_node/response_node.rs:83-122 | a non-string key, an unknown status and a non-mapping value each give their `Err`; a built response has the key's status and the value's description |
| OperationLemmas.ContentTypeRoundTrip | openapi_node/src/operation_node/content_type.rs:16-38 | printing then parsing a media type gives it back |
| OperationLemmas.ContentTypeSpellings | openapi_node/src/operation_node/content_type.rs:16-38 | a spelling parses exactly when it is a printing |
| OperationLemmas.ContentTypeNameInjective | openapi_node/src/operation_node/content_type.rs:30-38 | distinct media types print differently |
| OperationLemmas.StatusSpellings | openapi_node/src/operation_node/response_node.rs:54-69 | exactly the eleven listed codes parse |
| OperationLemmas.StatusRoundTrip | openapi_node/src/operation_node/response_node.rs:34-69 | the decimal text of a status's code parses back to the status |
| OperationLemmas.StatusCodeInjective | openapi_node/src/operation_node/response_node.rs:34-48 | distinct statuses have distinct codes |
| OperationLemmas.UnknownStatus | openapi_node/src/operation_node/response_node.rs:54-69 | an unlisted code is an error |
| OperationLemmas.PositionSpellings | openapi_node/src/operation_node/parameter_node.rs:29-37 | exactly four positions parse |
| OperationLemmas.ParameterOutsideKey | openapi_node/src/operation_node/parameter_node.rs:40-108 | a key outside the nine allowed ones fails a parameter |
| OperationLemmas.ParameterNameAndInRequired | openapi_node/src/operation_node/parameter_node.rs:74-108 | `name` is required, then `in` |
| OperationLemmas.ParameterBadPosition | openapi_node/src/operation_node/parameter_node.rs:74-108 | a bad `in` gives the position parser's error |
| OperationLemmas.ParameterSchemaRequired | openapi_node/src/operation_node/parameter_node.rs:74-108 | `schema` is required |
| OperationLemmas.ParameterFirstStage | openapi_node/src/operation_node/parameter_node.rs:74-108 | a built parameter came from a mapping that passed the key check |
| OperationLemmas.ParameterSecondStage | openapi_node/src/operation_node/parameter_node.rs:74-108 | a built parameter had a name and a parsable position |
| OperationLemmas.ParameterThirdStage | openapi_node/src/operation_node/parameter_node.rs:74-108 | the schema is built with the "{name}_schema" hint, then the enum |
| OperationLemmas.ParameterFields | openapi_node/src/operation_node/parameter_node.rs:74-108 | the fields of a built parameter, each from its key |
| OperationLemmas.ParameterEnumTexts | openapi_node/src/operation_node/parameter_node.rs:52-69 | enum items as texts, in order |
| OperationLemmas.ParameterEnumBadItem | openapi_node/src/operation_node/parameter_node.rs:52-69 | an item that is neither string nor integer fails the parameter |
| OperationLemmas.ParameterNeedsEnum | openapi_node/src/operation_node/parameter_node.rs:52-69 | an `enum` that is not a list fails the parameter |
| OperationLemmas.EnumBadItem | openapi_node/src/operation_node/parameter_node.rs:52-69 | a bad item fails the enum builder with its message |
| OperationLemmas.ResponseStatusErrors | openapi_node/src/operation_node/response_node.rs:83-122 | the key must be a string and a known status |
| OperationLemmas.ResponseValueNotMap | openapi_node/src/operation_node/response_node.rs:83-122 | the value must be a mapping |
| OperationLemmas.ResponseContentPanics | openapi_node/src/operation_node/response_node.rs:83-122 | a missing `content`, or one without exactly one entry, panics |
| OperationLemmas.ResponseFields | openapi_node/src/operation_node/response_node.rs:83-122 | the status of the key; a content type exactly when the media type is known |
| OperationLemmas.ResponseSchemaErrIsDropped | openapi_node/src/operation_node/response_node.rs:83-122 | a schema error is dropped through `.ok()` |
| OperationLemmas.ResponseSchemaPanicPropagates | openapi_node/src/operation_node/response_node.rs:83-122 | a schema panic aborts the response |
| OperationLemmas.ExampleEntriesDefined | openapi_node/src/operation_node/response_node.rs:72-78 | the examples exist exactly when every key is a string |
| OperationLemmas.ExampleEntriesKeys | openapi_node/src/operation_node/response_node.rs:72-78 | the examples have exactly the mapping's keys |
| OperationLemmas.ExampleEntriesLastWins | openapi_node/src/operation_node/response_node.rs:72-78 | a repeated key keeps its last value, as `HashMap::insert` does |
| Parser.FoldFrom | cli/src/openapi_parser/parser.rs:12-34 | once an extractor has returned nodes the state passes through untouched; with extractors that never add keys, the mapping does not grow |
| Parser.ParseContent | cli/src/openapi_parser/parser.rs:12-34 | with extractors that never add keys, a round never grows the mapping |
| Parser.ParseYamlContent | cli/src/openapi_parser/parser.rs:36-53 | the loop gives the recursive `YamlContent`, in at most as many rounds as keys |
| Parser.RoundStep | cli/src/openapi_parser/parser.rs:36-53 | one round of the loop as the definition takes it |
| ParserLemmas.FoldAfterDeclines | cli/src/openapi_parser/parser.rs:12-34 | while every extractor declines, each is offered the mapping the previous one left |
| ParserLemmas.FirstSomeWins | cli/src/openapi_parser/parser.rs:12-34 | the first extractor to return nodes gives the round's nodes and mapping |
| ParserLemmas.AllDecline | cli/src/openapi_parser/parser.rs:12-34 | when all decline, the round has no nodes |
| ParserLemmas.SameOffers | cli/src/openapi_parser/parser.rs:12-34 | two sets of extractors that agree up to one point are offered the same mappings up to that point |
| ParserLemmas.LaterExtractorsNotCalled | cli/src/openapi_parser/parser.rs:12-34 | extractors after the winning one are not consulted |
| ParserLemmas.RoundWithoutProgressPanics | cli/src/openapi_parser/parser.rs:36-53 | a round that removes nothing panics with "infinite loop" |
| ParserLemmas.RoundNodesComeFirst | cli/src/openapi_parser/parser.rs:36-53 | a round's nodes come before those of later rounds |
| ParserLemmas.FileMustHoldOneMapping | cli/src/openapi_parser/parser.rs:55-71 | a file needs exactly one document, and it must be a mapping |
| ParserLemmas.FileKeepsPath | cli/src/openapi_parser/parser.rs:55-71 | a parsed file keeps its path and holds its mapping's nodes |
| ParserLemmas.FilesInOrder | cli/src/openapi_parser/parser.rs:73-75 | one file node per file, in order |
| ParserLemmas.FirstFailingFile | cli/src/openapi_parser/parser.rs:73-75 | the first panicking file decides the batch |
| Parser.ParseYamlFile | cli/src/openapi_parser/parser.rs:55-71 | anything but exactly one document panics, and so does a document that is not a mapping; a parsed file keeps its path and holds the nodes extracted from the mapping |
| Parser.ParseYamlFiles | cli/src/openapi_parser/parser.rs:73-75 | Ok exactly when every file parses; then one node per file, in order, with its path |
| PostProcess.InsertParameters | cli/src/compiler/parse_postprocess.rs:36-63 | as many nodes as before (what each becomes is `PostProcessLemmas.DeleteAfterInsert`) |
| PostProcess.Merged | cli/src/compiler/parse_postprocess.rs:75-81 | as many files as before (what each becomes is `PostProcessLemmas.MergedOperations`) |
| PostProcess.RewriteRef | cli/src/compiler/parse_postprocess.rs:85-108 | a component reference stays; a result is always a component reference; no panic exactly when the reference is a component or its parent directory and canonical target exist; a file reference becomes the component named by the model at its canonical target |
| PostProcess.RewriteModel | cli/src/compiler/parse_postprocess.rs:137-174 | leaf schemas and component references are unchanged; a rewritten schema keeps its kind and title, and a rewritten reference is a component reference |
| PostProcess.RewriteParameter | cli/src/compiler/parse_postprocess.rs:114-120 | a parameter is rewritten exactly when its schema is; its schema becomes the rewritten schema and nothing else changes; a failure is the schema's |
| PostProcess.RewriteRequestBody | cli/src/compiler/parse_postprocess.rs:122-128 | no body stays none; a body is rewritten exactly when its schema is, its schema becomes the rewritten schema and nothing else changes; a failure is the schema's |
| PostProcess.RewriteResponse | cli/src/compiler/parse_postprocess.rs:130-134 | a response without a schema is kept; otherwise it is rewritten exactly when its schema is, the schema becomes the rewritten schema and nothing else changes; a failure is the schema's |
| PostProcess.RewriteOperation | cli/src/compiler/parse_postprocess.rs:109-135 | a rewritten operation keeps its number of parameters and responses, whether it has a request body, and every other field; the request-body schema is the rewrite of the old one; each response keeps all but its schema, keeps having or lacking one, and a present schema is the rewrite of the old one |
| PostProcess.RewriteNode | cli/src/compiler/parse_postprocess.rs:180-189 | nodes other than operations and data models are unchanged; a rewritten node keeps its kind, and a data model its title |
| PostProcess.InsertParametersToOperationNodes | cli/src/compiler/parse_postprocess.rs:36-63 | the loop gives `InsertParameters` |
| PostProcess.ListParameters | cli/src/compiler/parse_postprocess.rs:21-34 | the loop gives the parameters of every `Parameters` node in order |
| PostProcess.DeleteParametersNodes | cli/src/compiler/parse_postprocess.rs:65-73 | the loop keeps exactly the other nodes, in order |
| PostProcess.Corpus.constructor | cli/src/compiler/parse_postprocess.rs:7-17 | the corpus holds the parsed files |
| PostProcess.Corpus.RemoveExamples | cli/src/compiler/parse_postprocess.rs:7-17 | the files become those without example nodes, in order |
| PostProcess.Corpus.MergeParameterNodes | cli/src/compiler/parse_postprocess.rs:75-81 | the files become their merges |
| PostProcess.Corpus.ReplaceFileRefToComponentRef | cli/src/compiler/parse_postprocess.rs:176-191 | the files become their rewrite, or the first panic is returned |
| PostProcess.ReplaceInFile | cli/src/compiler/parse_postprocess.rs:109-174 | the loop gives the rewrite of one file |
| PostProcessLemmas.KeptFiles | cli/src/compiler/parse_postprocess.rs:7-17 | a file survives exactly when it was present and has no example |
| PostProcessLemmas.WithoutExamplesAppend | cli/src/compiler/parse_postprocess.rs:7-17 | removing examples from two corpora joined is removing them from each and joining the results in order, so survivors keep their relative order |
| PostProcessLemmas.WithoutExamplesShorter | cli/src/compiler/parse_postprocess.rs:7-17 | the survivors are no more than the corpus |
| PostProcessLemmas.WithoutExamplesIdempotent | cli/src/compiler/parse_postprocess.rs:7-17 | removing examples twice is removing once |
| PostProcessLemmas.ListAppend | cli/src/compiler/parse_postprocess.rs:21-34 | listing distributes over concatenation |
| PostProcessLemmas.Listed | cli/src/compiler/parse_postprocess.rs:21-34 | a parameter is listed exactly when some `Parameters` node holds it |
| PostProcessLemmas.MissingMembers | cli/src/compiler/parse_postprocess.rs:36-63 | the parameters added are exactly those whose name is not already present |
| PostProcessLemmas.NothingMissing | cli/src/compiler/parse_postprocess.rs:36-63 | nothing is added when every name is present |
| PostProcessLemmas.ExtendedParameters | cli/src/compiler/parse_postprocess.rs:36-63 | the operation's own parameters come first, then the missing ones; nothing else changes |
| PostProcessLemmas.ExtendIdempotent | cli/src/compiler/parse_postprocess.rs:36-63 | extending twice adds nothing more |
| PostProcessLemmas.ExtendByNothing | cli/src/compiler/parse_postprocess.rs:36-63 | an empty group changes nothing |
| PostProcessLemmas.NoParametersLeft | cli/src/compiler/parse_postprocess.rs:65-73 | no `Parameters` node is left after deletion |
| PostProcessLemmas.DeleteNothing | cli/src/compiler/parse_postprocess.rs:65-73 | deletion without `Parameters` nodes is the identity |
| PostProcessLemmas.ListNothing | cli/src/compiler/parse_postprocess.rs:21-34 | nothing is listed from contents without `Parameters` nodes |
| PostProcessLemmas.DeleteAfterInsert | cli/src/compiler/parse_postprocess.rs:36-73 | insertion then deletion keeps the non-parameter nodes, operations extended |
| PostProcessLemmas.MergeIdempotent | cli/src/compiler/parse_postprocess.rs:75-81 | merging a file twice is merging once |
| PostProcessLemmas.MergedOperations | cli/src/compiler/parse_postprocess.rs:75-81 | each merged operation is an original one extended by the file's parameters |
| PostProcessLemmas.RewriteRemovesFileRefs | cli/src/compiler/parse_postprocess.rs:137-174 | a successful rewrite leaves no file reference and keeps the node's kind and title |
| PostProcessLemmas.RewriteKeepsResolved | cli/src/compiler/parse_postprocess.rs:137-174 | a model without file references is unchanged |
| PostProcessLemmas.RewriteIdempotent | cli/src/compiler/parse_postprocess.rs:137-174 | rewriting twice is rewriting once |
| PostProcessLemmas.FileRefResolved | cli/src/compiler/parse_postprocess.rs:85-108 | a resolvable file reference becomes its target's component |
| PostProcessLemmas.FileRefUnresolved | cli/src/compiler/parse_postprocess.rs:85-108 | an unresolvable one panics |
| PostProcessLemmas.OtherNodesUntouched | cli/src/compiler/parse_postprocess.rs:176-191 | only operations and data models change |
| PostProcessLemmas.OperationWithoutSchemas | cli/src/compiler/parse_postprocess.rs:109-135 | an operation without schemas is unchanged |
| PostProcessLemmas.ParametersRewritten | cli/src/compiler/parse_postprocess.rs:109-135 | each parameter keeps everything but its rewritten schema |
| PostProcessLemmas.OperationRewriteRemovesFileRefs | cli/src/compiler/parse_postprocess.rs:109-135 | after a successful rewrite no parameter, request-body or response schema of the operation holds a file reference |
| PostProcessLemmas.RewriteRemovesAllFileRefs | cli/src/compiler/parse_postprocess.rs:176-191 | after a successful pass every file keeps its path and node count, and no operation or data model of any file holds a file reference |
| PostProcessLemmas.FileRewritten | cli/src/compiler/parse_postprocess.rs:176-191 | same path and node count, each node rewritten |
| PostProcessLemmas.FirstPanickingFile | cli/src/compiler/parse_postprocess.rs:176-191 | the first panicking file decides the pass |
| PostProcessOlder.WithoutExampleFiles | src/compiler/parse_postprocess.rs:5-19 | a path survives exactly when its file is not all examples or is empty |
| PostProcessOlder.MergedFiles | src/compiler/parse_postprocess.rs:77-83 | same paths, each file merged |
| PostProcessOlder.OlderCorpus.RemoveExamples | src/compiler/parse_postprocess.rs:5-19 | the map loop gives `WithoutExampleFiles` |
| PostProcessOlder.OlderCorpus.MergeParameterNodes | src/compiler/parse_postprocess.rs:77-83 | the map loop gives `MergedFiles` |
| PostProcessOlder.EmptyFileFate | src/compiler/parse_postprocess.rs:5-19 | the older pass drops an empty file, the newer keeps it |
| PostProcessOlder.MixedFileFate | src/compiler/parse_postprocess.rs:5-19 | a mixed file is kept by the older pass and dropped by the newer one |
| PostProcessOlder.ExampleFileFate | src/compiler/parse_postprocess.rs:5-19 | a file holding only examples is dropped by both |
| CompilerEnvironment.BuildNamespace | src/compiler/compiler.rs:28-38 | a missing name and an empty name panic; otherwise the name with its first character upper-cased and the rest unchanged, then "Service" |
| CompilerEnvironment.FirstPaths | src/compiler/compiler.rs:40-74 | None exactly when no node is a `Paths` node; otherwise the entries of the first one |
| CompilerEnvironment.PathEntries | src/compiler/compiler.rs:40-74 | never an `Err`: an entry without a file name panics (which keys it yields is `CompilerEnvLemmas.PathEntriesKeys`) |
| CompilerEnvironment.BuildPathFileMap | src/compiler/compiler.rs:40-74 | never an `Err`; a corpus without a `Paths` node panics with "failed to find paths node" (success and keys in `CompilerEnvLemmas.PathFileMapKeys`) |
| CompilerEnvironment.FileComponents | src/compiler/compiler.rs:76-90 | every component of a file maps to that file's path |
| CompilerEnvironment.BuildComponentFilePathMap | src/compiler/compiler.rs:76-90 | the nested loops give `ComponentFilePaths` |
| CompilerEnvironment.BuildEnv | src/compiler/compiler.rs:109-131 | Ok exactly when the root name is present and non-empty and the path map builds; never `Err`; a missing or empty root name gives `build_namespace`'s panic, and a failing path map gives its panic; the namespace is the root name with its first character ASCII-upper-cased and the rest unchanged, then "Service"; the component map and the path map are the specified ones |
| CompilerEnvLemmas.NoPathsNode | src/compiler/compiler.rs:40-74 | a corpus without `Paths` panics |
| CompilerEnvLemmas.PathEntriesKeys | src/compiler/compiler.rs:40-74 | Ok exactly when every entry has a file name; the keys are those names |
| CompilerEnvLemmas.PathEntriesLastWins | src/compiler/compiler.rs:40-74 | each key maps to the route of its last entry |
| CompilerEnvLemmas.PathFileMapKeys | src/compiler/compiler.rs:40-74 | the path map builds exactly when there is a `Paths` node and every entry of the first one has a file name; its keys are those file names |
| CompilerEnvLemmas.FileComponentsKeys | src/compiler/compiler.rs:76-90 | a file's components are its titled object models |
| CompilerEnvLemmas.ComponentKeys | src/compiler/compiler.rs:76-90 | a title is mapped exactly when some file defines it |
| CompilerEnvLemmas.ComponentLastFileWins | src/compiler/compiler.rs:76-90 | a title maps to the last file defining it |
| TypeSpecAst.Decorator.LibName | cli/src/type_spec/node/decorators/http.rs:14-20 | a decorator needs a library exactly when it is an http decorator or the info decorator |
| TypeSpecAst.Decorator.NamespaceName | cli/src/type_spec/node/decorators/http.rs:14-20 | a decorator uses a namespace exactly when it needs a library |
| TypeSpecAst.DecoratorLibs | cli/src/type_spec/node_builder/interface_node.rs:62-87 | at most one library per decorator (which ones is `InterfaceGenLemmas.RouteLibraries` and `OperationGenLemmas.MethodDecoratorLibs`) |
| TypeSpecAst.DecoratorUsings | cli/src/type_spec/node_builder/interface_node.rs:89-103 | at most one namespace per decorator |
| TypeSpecAst.CollectDecoratorLibs | cli/src/type_spec/node_builder/interface_node.rs:62-103 | the loop gives both lists, which are equally long |
| ModelGen.NumberType | src/type_spec/node_builder/model_node.rs:251-264 | float gives float32, double float64, no format int32 |
| ModelGen.ContentOf | src/type_spec/node_builder/model_node.rs:266-282 | Ok exactly when no file reference is left; the content keeps the node's kind |
| ModelGen.MemberOutcomes | src/type_spec/node_builder/model_node.rs:14-32 | each member's content, and Ok exactly when it has no file reference |
| ModelGen.RecordOf | src/type_spec/node_builder/model_node.rs:207-245 | one record property per schema property, same key and required flag |
| ModelGen.PropertyOf | src/type_spec/node_builder/model_node.rs:44-205 | Ok exactly when the schema holds no file reference, else the "Unexpected ref node" panic; same key and required flag; a property that is not a string has no decorators and its schema's content as value |
| ModelGen.StringProperty | src/type_spec/node_builder/model_node.rs:102-140 | an enum gives a union of its literals in order, with no decorators; otherwise a `string` with the decorators of its constraints |
| ModelGen.StringDecorators | src/type_spec/node_builder/model_node.rs:102-140 | at most four decorators (which ones is `ModelGenLemmas.StringDecoratorsPresent`) |
| ModelGen.BuildStringDecorators | src/type_spec/node_builder/model_node.rs:102-140 | the pushes give `StringDecorators` |
| ModelGen.ModelNodeOf | src/type_spec/node_builder/model_node.rs:284-295 | the model is named after the title, else "UnknownModel", with the record's properties |
| ModelGen.ImportPath | src/type_spec/node_builder/model_node.rs:297-318 | never `Err`; an unknown component gives the placeholder; a missing parent directory panics; Ok exactly when the parent and the relative path exist, and then the import is "./" followed by the relative path with every ".yaml" replaced by ".tsp" |
| ModelGen.ImportsFor | src/type_spec/node_builder/model_node.rs:320-362 | one import per referenced name, in order; the first panic ends it |
| ModelGen.ImportsForAppend | src/type_spec/node_builder/model_node.rs:320-362 | the imports of two runs of names: a failure in the first run decides, else a failure in the second, else the two import lists one after the other |
| ModelGen.ContentImports | src/type_spec/node_builder/model_node.rs:320-362 | the collector gives `ImportsFor` of the content's references |
| ModelGen.MemberImports | src/type_spec/node_builder/model_node.rs:320-362 | the member loop gives the members' imports |
| ModelGen.RecordImports | src/type_spec/node_builder/model_node.rs:364-380 | the record loop gives the properties' imports |
| ModelGenLemmas.StringDecoratorsPresent | src/type_spec/node_builder/model_node.rs:102-140 | a decorator exactly for each constraint set, with its value |
| ModelGenLemmas.StringDecoratorsOrdered | src/type_spec/node_builder/model_node.rs:102-140 | pattern, format, minLength, maxLength order |
| ModelGenLemmas.ContentRefs | src/type_spec/node_builder/model_node.rs:266-282 | a content refers to the schema's component references |
| ModelGenLemmas.RecordRefs | src/type_spec/node_builder/model_node.rs:207-245 | the same for a record |
| ModelGenLemmas.OneOfRefs | src/type_spec/node_builder/model_node.rs:14-22 | the same for a oneOf |
| ModelGenLemmas.AllOfRefs | src/type_spec/node_builder/model_node.rs:24-32 | the same for an allOf |
| ModelGenLemmas.PropertyRefsAgree | src/type_spec/node_builder/model_node.rs:44-205 | the same for a property |
| ModelGenLemmas.ModelImports | src/type_spec/node_builder/model_node.rs:382-388 | a model's imports are one per component reference of its schema, in order |
| ModelGenLemmas.YamlImportBecomesTsp | src/type_spec/node_builder/model_node.rs:297-318 | a component whose relative path ends in ".yaml" is imported from "./" plus a path ending in ".tsp" |
| ModelGenLemmas.PlainImportKept | src/type_spec/node_builder/model_node.rs:297-318 | a relative path without ".yaml" in it is imported as "./" plus that path |
| OperationGen.MethodOf | cli/src/type_spec/node_builder/operation_node.rs:13-34 | parsing the name of a verb's HTTP method gives back the verb |
| OperationGen.OperationName | cli/src/type_spec/node_builder/operation_node.rs:121-129 | the name is one of list, create, update and delete, and it is update exactly for put and patch |
| OperationGen.ParameterDecorators | cli/src/type_spec/node_builder/operation_node.rs:37-75 | `@path` or `@header`; none for query or cookie |
| OperationGen.ParameterOf | cli/src/type_spec/node_builder/operation_node.rs:37-75 | Ok exactly when the schema holds no file reference; the position's decorators; a name ending in "[]" loses that suffix and the type becomes an array of the schema's content |
| OperationGen.ResponseContent | cli/src/type_spec/node_builder/operation_node.rs:78-119 | Ok exactly when the schema is absent or holds no file reference; a record keyed statusCode, then contentType when present, then body when a schema is present; the status code carries `@statusCode` and the status's code; all properties are required |
| OperationGen.BuildResponseNode | cli/src/type_spec/node_builder/operation_node.rs:78-119 | the pushes give `ResponseContent` |
| OperationGen.ParametersOf | cli/src/type_spec/node_builder/operation_node.rs:131-155 | Ok exactly when no parameter schema has a file reference; each converted in order |
| OperationGen.ResponsesOf | cli/src/type_spec/node_builder/operation_node.rs:131-155 | the same for the responses |
| OperationGen.OperationOf | cli/src/type_spec/node_builder/operation_node.rs:131-155 | the name, one method decorator, and the parameters and responses converted |
| OperationGen.ParameterImports | cli/src/type_spec/node_builder/operation_node.rs:157-180 | Ok exactly when the type's imports are; as many imports as decorator libraries plus type references |
| OperationGen.CollectParameterImports | cli/src/type_spec/node_builder/operation_node.rs:157-180 | the collector gives `ParameterImports` |
| OperationGen.CollectAllParameterImports | cli/src/type_spec/node_builder/operation_node.rs:182-215 | the parameter loop gives their concatenated imports |
| OperationGen.CollectAllResponseImports | cli/src/type_spec/node_builder/operation_node.rs:182-215 | the response loop gives their concatenated imports |
| OperationGen.CollectOperationImports | cli/src/type_spec/node_builder/operation_node.rs:182-215 | decorators, then parameters, then responses |
| OperationGenLemmas.MethodInjective | cli/src/type_spec/node_builder/operation_node.rs:13-34 | distinct verbs give distinct methods |
| OperationGenLemmas.OperationNameCollisions | cli/src/type_spec/node_builder/operation_node.rs:121-129 | only put and patch share a name ("update") |
| OperationGenLemmas.MethodDecoratorLibs | cli/src/type_spec/node/decorators/method_decorator_node.rs:44-51 | the method decorator needs the http library alone |
| OperationGenLemmas.OperationImportsStartWithHttp | cli/src/type_spec/node_builder/operation_node.rs:182-215 | a built operation imports the http library first |
| OperationGenLemmas.DecoratedOperationImports | cli/src/type_spec/node_builder/operation_node.rs:182-215 | the same for any operation decorated with its method alone |
| OperationGenLemmas.ParameterImportsByPosition | cli/src/type_spec/node_builder/operation_node.rs:157-180 | path or header parameters import http first; others only their type's imports |
| OperationGenLemmas.ParameterRefs | cli/src/type_spec/node_builder/operation_node.rs:37-75 | a parameter type refers to its schema's components |
| OperationGenLemmas.ResponseRefs | cli/src/type_spec/node_builder/operation_node.rs:78-119 | a response refers to its body's components only |
| InterfaceGen.RaiseAfterUnderscores | cli/src/type_spec/node_builder/interface_node.rs:12-24 | never longer than its input (what it keeps is `InterfaceGenLemmas.RaiseChars`) |
| InterfaceGen.ToPascalCase | cli/src/type_spec/node_builder/interface_node.rs:12-24 | never longer than its input (what it does is the Pascal lemmas below) |
| InterfaceGen.Split | cli/src/type_spec/node_builder/interface_node.rs:26-60 | `split` gives at least one piece (the round trip is `InterfaceGenLemmas.SplitJoin`) |
| InterfaceGen.InterfaceName | cli/src/type_spec/node_builder/interface_node.rs:35-39 | a one-character route gives the empty name (the characters of the name are stated by `InterfaceGenLemmas.InterfaceNameChars`) |
| InterfaceGen.BuildWrappedInterface | cli/src/type_spec/node_builder/interface_node.rs:26-60 | a missing route panics; otherwise a namespace wrapping one routed interface of the operations |
| InterfaceGen.CollectAllOperationImports | cli/src/type_spec/node_builder/interface_node.rs:62-87 | the loop gives the operations' concatenated imports |
| InterfaceGen.CollectInterfaceImports | cli/src/type_spec/node_builder/interface_node.rs:62-87 | decorators, then each operation |
| InterfaceGen.CollectInterfaceUsings | cli/src/type_spec/node_builder/interface_node.rs:89-103 | the decorators' namespaces |
| InterfaceGenLemmas.SplitJoin | cli/src/type_spec/node_builder/interface_node.rs:26-60 | joining the pieces gives the string back |
| InterfaceGenLemmas.SplitPieces | cli/src/type_spec/node_builder/interface_node.rs:26-60 | pieces hold no separator |
| InterfaceGenLemmas.RaiseChars | cli/src/type_spec/node_builder/interface_node.rs:12-24 | raising keeps every non-upper-case character |
| InterfaceGenLemmas.RaiseNothing | cli/src/type_spec/node_builder/interface_node.rs:12-24 | without underscores nothing changes |
| InterfaceGenLemmas.PascalChars | cli/src/type_spec/node_builder/interface_node.rs:12-24 | no braces; other characters come from the input |
| InterfaceGenLemmas.PascalFirst | cli/src/type_spec/node_builder/interface_node.rs:12-24 | the first lower-case letter is upper-cased |
| InterfaceGenLemmas.PascalUnderscore | cli/src/type_spec/node_builder/interface_node.rs:12-24 | `_` and a word character become the upper-cased character |
| InterfaceGenLemmas.PascalWithoutUnderscores | cli/src/type_spec/node_builder/interface_node.rs:12-24 | only the first character changes |
| InterfaceGenLemmas.PascalBraceFree | cli/src/type_spec/node_builder/interface_node.rs:12-24 | without braces, only the first character and underscores matter |
| InterfaceGenLemmas.PascalOfDoubleUnderscore | cli/src/type_spec/node_builder/interface_node.rs:12-24 | `__` becomes `_`: the first underscore is dropped, the second is kept as the raised character, and the character after it is not raised |
| InterfaceGenLemmas.InterfaceNameChars | cli/src/type_spec/node_builder/interface_node.rs:26-60 | the interface name holds no "/" and no brace |
| InterfaceGenLemmas.WrappedInterfaceLibraries | cli/src/type_spec/node_builder/interface_node.rs:62-103 | a wrapped interface imports http first and uses only its namespace |
| InterfaceGenLemmas.RoutedInterfaceLibraries | cli/src/type_spec/node_builder/interface_node.rs:62-103 | the same for any interface decorated with its route alone |
| InterfaceGenLemmas.RouteLibraries | cli/src/type_spec/node/decorators/route_decorator_node.rs:17-24 | the route decorator needs the http library and namespace |
| TypeSpecGen.NamespaceOf | cli/src/type_spec/node_builder/namespace_node.rs:6-32 | an empty namespace named after the service, whose decorators carry the document info back |
| TypeSpecGen.ContentsOf | src/type_spec/node_builder/type_spec_node.rs:79-98 | Ok exactly when every node can be generated, else the "Unexpected ref node" panic; only namespaces and models, never more nodes than sources |
| TypeSpecGen.BuildContent | src/type_spec/node_builder/type_spec_node.rs:60-77 | an empty list panics as `Vec::remove(0)` does; otherwise the leading node is removed and built, and its panic ends the build |
| TypeSpecGen.BuildContents | src/type_spec/node_builder/type_spec_node.rs:79-98 | the loop gives `ContentsOf`, one round per source node |
| TypeSpecGen.NodeImports | src/type_spec/node_builder/type_spec_node.rs:100-124 | a namespace imports its decorators' libraries; nodes other than namespaces and models import nothing; never `Err` |
| TypeSpecGen.CollectNodeImports | src/type_spec/node_builder/type_spec_node.rs:100-124 | the collector gives `NodeImports` |
| TypeSpecGen.NodeUsings | src/type_spec/node_builder/type_spec_node.rs:126-141 | only a namespace uses anything |
| TypeSpecGenLemmas.ContentsAppend | src/type_spec/node_builder/type_spec_node.rs:79-98 | contents of two pieces in order, an earlier panic first |
| TypeSpecGenLemmas.ContentsCount | src/type_spec/node_builder/type_spec_node.rs:79-98 | one node for each info and object model |
| TypeSpecGenLemmas.InfoAlone | src/type_spec/node_builder/type_spec_node.rs:18-32 | an info alone gives the service namespace |
| TypeSpecGenLemmas.NamespaceLibraries | cli/src/type_spec/node_builder/namespace_node.rs:34-62 | a namespace imports and uses openapi |
| TypeSpecGenLemmas.GeneratedModelImports | src/type_spec/node_builder/model_node.rs:382-388 | a generated model imports its schema's references |
| FileGen.BuildImportAndNameSpaces | cli/src/type_spec/node_builder/type_spec_file_node.rs:12-36 | the loop gives every import and every using of the nodes, each once |
| FileGen.FirstImports | cli/src/type_spec/node_builder/type_spec_file_node.rs:38-75 | the items of the first `Imports` node |
| FileGen.WithoutImports | cli/src/type_spec/node_builder/type_spec_file_node.rs:38-75 | exactly the non-`Imports` nodes |
| FileGen.TypeSpecFileOf | cli/src/type_spec/node_builder/type_spec_file_node.rs:38-75 | path with ".tsp"; a missing file name panics; Ok exactly when building and gathering succeed; no `Imports` node left |
| FileGen.OutputPath | cli/src/type_spec/node_builder/type_spec_file_node.rs:44-47 | a ".yaml" path gives a ".tsp" path; a path without ".yaml" is unchanged |
| FileGen.BuildTypeSpecFile | cli/src/type_spec/node_builder/type_spec_file_node.rs:38-75 | the method gives `TypeSpecFileOf` |
| FileGenLemmas.FileImportCounts | cli/src/type_spec/node_builder/type_spec_file_node.rs:12-75 | each gathered import once, plus the explicit ones |
| FileGenLemmas.FileUsingsExact | cli/src/type_spec/node_builder/type_spec_file_node.rs:12-36 | the usings are exactly the nodes' usings |
| FileGenLemmas.WithoutImportsAppend | cli/src/type_spec/node_builder/type_spec_file_node.rs:38-75 | dropping `Imports` nodes keeps order |
| FileGenLemmas.WithoutImportsNone | cli/src/type_spec/node_builder/type_spec_file_node.rs:38-75 | without `Imports` nodes nothing changes |
| FileGenLemmas.SourceBuilderFile | cli/src/type_spec/node_builder/type_spec_file_node.rs:38-75 | with the newer contents builder the nodes pass unchanged, no import twice |
| FileGenLemmas.SecondImportsDropped | cli/src/type_spec/node_builder/type_spec_file_node.rs:38-75 | a second `Imports` node's items are dropped |
| FileGenLemmas.FileRefPanics | src/type_spec/node_builder/model_node.rs:34-42 | a file reference left in a model panics |
| Compiler.GenerateFiles | src/compiler/compiler.rs:109-131 | one TypeSpec file per file, in order; the first panic ends it |
| Compiler.Compile | src/compiler/compiler.rs:109-131 | a failed parse passes on; a missing or empty root name panics as `build_namespace` does; a failing path map passes its panic on; otherwise the environment holds the upper-cased namespace with "Service", the path map and the component map of the parsed files with examples removed and parameters merged, and the result is the generated files of those files; an Ok result implies all of these steps succeeded |
| Compiler.GeneratedPaths | src/compiler/compiler.rs:125-128 | the generated files are one per parsed file, in order, each at the source path with ".yaml" replaced by ".tsp", so a ".yaml" source gives a ".tsp" file |

## Left out

- Reading the directory tree and writing the TypeSpec files (`yaml_loader`, `write_type_spec_file`, `write_log`). The loaded files are an input, and the output is the list of TypeSpec file nodes.
- The extractors that recognise each kind of top-level node (`parse_*_content`). They are a function parameter of the parser. Their contract that a round never adds keys is a precondition of `Parser.ParseYamlContent`, because the source would loop forever otherwise.
- `OperationNode::try_from`, `RequestBodyNode::try_from`, the path, tag, server, info and metadata builders, and their examples. Each is an extractor.
- Floating-point fields: the default, minimum, maximum and example of a number node, and `get_f64`.
- Unicode: upper-casing and `\w` are taken over ASCII. Slicing at a non-character boundary is not modelled.
- The `Display` serialisers of the TypeSpec nodes. Only the decorator and format spellings the contracts need are modelled.
- The enum and model-alias generators. The compiler does not call them.
- The command-line crate's three-argument `build_contents` and its model and type-spec node dispatch are not part of this model. The contents builder is a parameter, and `FileGen.SourceContents` stands for the newer one.
- `ServiceDecorator` has no `LibInfo` among the files modelled, so it is modelled with no library and no namespace.
- `Path::parent`, `canonicalize`, `diff_paths` and `file_name` are parameters, because they depend on the file system.
- The debug text inside the "Unexpected ref node" panic, and the left and right values `assert_eq!` appends to its message.
- Hash-set order: imports are a multiset and usings a set, because the source iterates `HashSet`s.
- Compiler.Compile: the newer `compile` calls the map-based passes and does not run the file-reference rewrite; the model runs the command-line passes on a list instead.
- TypeSpecGen.NodeImports: an interface node contributes no imports.
- ModelGen.ImportPath: `get_import_path` at `src/type_spec/node_builder/model_node.rs:302` reads `env.object_file_path_map`, but the `CompilerEnv` of `src/compiler/compiler.rs:103-107` has only `component_file_path_map`. The model reads the component map, which is the one `compile` fills.
- YamlModel.UnexpectedKeysMessage: the source formats the joined keys with `{:?}`, which also escapes `"`, `\` and control characters. The model only puts the joined keys in quotes, so the message differs for keys that hold such characters.
- InterfaceGen.InterfaceName: its own contract states only the one-character route. What the name is made of is stated by `InterfaceGenLemmas.InterfaceNameChars`.
