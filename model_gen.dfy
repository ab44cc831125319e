/** `src/type_spec/node_builder/model_node.rs`: the TypeSpec model content
    of a schema node, the record of an object schema, and the imports a
    model needs for the components it refers to.

    A file reference makes the content builder panic, so the file-reference
    rewrite of the post-processing passes is what makes generation total.
    The parent directory and `pathdiff::diff_paths` are the parameters of
    `RelPathOps`. */
module ModelGen {
  import opened Wrappers
  import opened Strings
  import opened SchemaNodes
  import opened SchemaBuilder
  import opened TypeSpecAst
  import opened CompilerEnvironment
  import opened PostProcessLemmas
  import opened YamlModel

  /** The panic of `build_model_ref_node` on a file reference (its message
      also carries the node's debug text, which the model leaves out). */
  const UNEXPECTED_REF: string := "Unexpected ref node"
  const UNKNOWN_MODEL: string := "UnknownModel"

  /** `build_number_type_node`: the format picks the float width; a number
      without a format becomes an `int32`. */
  function NumberType(n: NumberNode): (r: TypeNode)
    ensures r == Float32Type <==> n.format == Some(Float)
    ensures r == Float64Type <==> n.format == Some(Double)
    ensures r == Int32Type <==> n.format.None?
  {
    match n.format
    case Some(Float) => Float32Type
    case Some(Double) => Float64Type
    case None => Int32Type
  }

  /** The content a schema node of each kind translates to: arrays, objects,
      oneOf and allOf keep their shape, a component reference becomes a
      reference to the model of the same name, and the primitive kinds
      become their TypeSpec types (a string with an enum is still a plain
      `string` here). */
  predicate KindKept(n: DataModelNode, c: ModelContent) {
    match n
    case ArrayModel(_) => c.ArrayOf?
    case ObjectModel(_) => c.Record?
    case OneOfModel(_) => c.Union?
    case AllOfModel(_) => c.Intersect?
    case RefModel(r) => r.ComponentRef? && c == ModelRef(r.componentName)
    case StringModel(_) => c == Type(StringType)
    case IntegerModel(_) => c == Type(Int32Type)
    case BooleanModel(_) => c == Type(BooleanType)
    case NumberModel(m) => c == Type(NumberType(m))
  }

  /** `build_model_content_node`: succeeds exactly when no file reference
      is left anywhere in the node. */
  function ContentOf(n: DataModelNode): (r: Result<ModelContent>)
    ensures r.Ok? <==> NoFileRef(n)
    ensures !r.Ok? ==> r == Panic(UNEXPECTED_REF)
    ensures r.Ok? ==> KindKept(n, r.value)
    decreases n, 1
  {
    match n
    case ArrayModel(a) =>
      var item :- ContentOf(a.items);
      Ok(ArrayOf(item))
    case ObjectModel(o) =>
      var properties :- RecordOf(o);
      Ok(Record(properties))
    case OneOfModel(o) =>
      var members :- Collect(MemberOutcomes(n));
      Ok(Union(members))
    case AllOfModel(o) =>
      var members :- Collect(MemberOutcomes(n));
      Ok(Intersect(members))
    case StringModel(_) => Ok(Type(StringType))
    case IntegerModel(_) => Ok(Type(Int32Type))
    case NumberModel(m) => Ok(Type(NumberType(m)))
    case BooleanModel(_) => Ok(Type(BooleanType))
    case RefModel(r) =>
      if r.ComponentRef? then Ok(ModelRef(r.componentName)) else Panic(UNEXPECTED_REF)
  }

  /** The member schemas of a union or an intersection. */
  function Members(n: DataModelNode): seq<DataModelNode>
    requires n.OneOfModel? || n.AllOfModel?
  {
    if n.OneOfModel? then n.oneOfNode.items else n.allOfNode.items
  }

  /** The content of each member of a union or an intersection. */
  function MemberOutcomes(n: DataModelNode): (r: seq<Result<ModelContent>>)
    requires n.OneOfModel? || n.AllOfModel?
    ensures |r| == |Members(n)|
    ensures forall j :: 0 <= j < |Members(n)| ==> r[j] == ContentOf(Members(n)[j]) && (r[j].Ok? <==> NoFileRef(Members(n)[j]))
    decreases n, 0
  {
    var items := Members(n);
    seq(|items|, j requires 0 <= j < |items| => ContentOf(items[j]))
  }

  /** `build_record_model_node`: one record property per schema property,
      in order, with the same key and required flag. */
  function RecordOf(o: ObjectNode): (r: Result<seq<RecordProperty>>)
    ensures r.Ok? <==> forall j :: 0 <= j < |o.properties| ==> NoFileRef(o.properties[j].value)
    ensures !r.Ok? ==> r == Panic(UNEXPECTED_REF)
    ensures r.Ok? ==> |r.value| == |o.properties|
    ensures r.Ok? ==> forall j :: 0 <= j < |o.properties| ==>
      r.value[j].key == o.properties[j].key && r.value[j].required == o.properties[j].required
    decreases ObjectModel(o), 0
  {
    var rs := seq(|o.properties|, j requires 0 <= j < |o.properties| => PropertyOf(o.properties[j]));
    assert forall j :: 0 <= j < |o.properties| ==> (rs[j].Ok? <==> NoFileRef(o.properties[j].value));
    Collect(rs)
  }

  /** The property builders (`build_*_property_node`): a string property
      has its own builder; every other kind has no decorators and the
      content of its schema as value. */
  function PropertyOf(p: PropertyNode): (r: Result<RecordProperty>)
    ensures r.Ok? <==> NoFileRef(p.value)
    ensures !r.Ok? ==> r == Panic(UNEXPECTED_REF)
    ensures r.Ok? ==> r.value.key == p.key && r.value.required == p.required
    ensures r.Ok? && !p.value.StringModel? ==> r.value.decorators == [] && Ok(r.value.value) == ContentOf(p.value)
    decreases p.value, 2
  {
    if p.value.StringModel? then Ok(StringProperty(p.key, p.value.stringNode, p.required))
    else
      var value :- ContentOf(p.value);
      Ok(RecordProperty([], p.key, value, p.required))
  }

  /** `build_string_property_node`: an enum becomes a union of its values
      as string literals, in order and without decorators; otherwise the
      property is a `string` with the decorators of its constraints. */
  function StringProperty(key: string, s: StringNode, required: bool): (r: RecordProperty)
    ensures r.key == key && r.required == required
    ensures s.stringEnum.Some? ==>
      && r.decorators == []
      && r.value.Union?
      && |r.value.members| == |s.stringEnum.value|
      && forall i :: 0 <= i < |s.stringEnum.value| ==> r.value.members[i] == StringLiteral(s.stringEnum.value[i])
    ensures s.stringEnum.None? ==> r.value == Type(StringType) && r.decorators == StringDecorators(s)
  {
    if s.stringEnum.Some? then
      var values := s.stringEnum.value;
      RecordProperty([], key, Union(seq(|values|, i requires 0 <= i < |values| => StringLiteral(values[i]))), required)
    else
      RecordProperty(StringDecorators(s), key, Type(StringType), required)
  }

  /** The position of a constraint decorator in a string property. */
  function DecoratorRank(d: Decorator): nat {
    match d
    case PatternDecorator(_) => 0
    case FormatDecorator(_) => 1
    case MinLengthDecorator(_) => 2
    case MaxLengthDecorator(_) => 3
    case _ => 4
  }

  /** The decorators of a string property without an enum: one per
      constraint present, in the order pattern, format, minLength,
      maxLength. */
  function StringDecorators(s: StringNode): (r: seq<Decorator>)
    ensures |r| <= 4
  {
    (if s.pattern.Some? then [PatternDecorator(s.pattern.value)] else [])
    + (if s.format.Some? then [FormatDecorator(StringFormatName(s.format.value))] else [])
    + (if s.minLength.Some? then [MinLengthDecorator(s.minLength.value)] else [])
    + (if s.maxLength.Some? then [MaxLengthDecorator(s.maxLength.value)] else [])
  }

  /** The decorator pushes of `build_string_property_node`. */
  method BuildStringDecorators(s: StringNode) returns (decorators: seq<Decorator>)
    ensures decorators == StringDecorators(s)
  {
    decorators := [];
    if s.pattern.Some? {
      decorators := decorators + [PatternDecorator(s.pattern.value)];
    }
    if s.format.Some? {
      decorators := decorators + [FormatDecorator(StringFormatName(s.format.value))];
    }
    if s.minLength.Some? {
      decorators := decorators + [MinLengthDecorator(s.minLength.value)];
    }
    if s.maxLength.Some? {
      decorators := decorators + [MaxLengthDecorator(s.maxLength.value)];
    }
  }

  /** `build_model_node`: the model named by the object's title, or
      "UnknownModel", whose record is the object's content (so the
      "Invalid model node" panic cannot happen). */
  function ModelNodeOf(o: ObjectNode): (r: Result<ModelNode>)
    ensures r.Ok? <==> forall j :: 0 <= j < |o.properties| ==> NoFileRef(o.properties[j].value)
    ensures !r.Ok? ==> r == Panic(UNEXPECTED_REF)
    ensures r.Ok? ==> ContentOf(ObjectModel(o)) == Ok(Record(r.value.record))
    ensures r.Ok? && o.title.Some? ==> r.value.name == o.title.value
    ensures r.Ok? && o.title.None? ==> r.value.name == UNKNOWN_MODEL
  {
    var record :- RecordOf(o);
    Ok(ModelNode(o.title.GetOr(UNKNOWN_MODEL), record))
  }

  // ----------------------------------------------------------- imports

  /** The file-system side of `get_import_path`: `Path::parent`, and
      `diff_paths(target, base)`. */
  datatype RelPathOps = RelPathOps(
    parent: string -> Option<string>,
    diffPaths: (string, string) -> Option<string>)

  const UNKNOWN_COMPONENT_REF: string := "UnknownComponentRef"
  const NO_PARENT_PANIC: string := "Cannot find parent dir"
  const NO_RELATIVE_PATH_PANIC: string := "Cannot find relative path"

  /** `get_import_path`: a known component is imported from its file,
      relative to the directory of the current file and with the extension
      changed to `.tsp`; an unknown one gives a placeholder. */
  function ImportPath(name: string, currentFile: string, env: CompilerEnv, ops: RelPathOps): (r: Result<string>)
    ensures !r.Err?
    ensures name !in env.componentFilePathMap ==> r == Ok(UNKNOWN_COMPONENT_REF)
    ensures name in env.componentFilePathMap ==>
      && (ops.parent(currentFile).None? ==> r == Panic(NO_PARENT_PANIC))
      && (r.Ok? <==> ops.parent(currentFile).Some? && ops.diffPaths(env.componentFilePathMap[name], ops.parent(currentFile).value).Some?)
      && (r.Ok? ==> StartsWith(r.value, "./"))
      && (r.Ok? ==> r.value == "./" + ReplaceAll(ops.diffPaths(env.componentFilePathMap[name], ops.parent(currentFile).value).value, ".yaml", ".tsp"))
  {
    if name !in env.componentFilePathMap then Ok(UNKNOWN_COMPONENT_REF)
    else
      var dir := ops.parent(currentFile);
      if dir.None? then Panic(NO_PARENT_PANIC)
      else
        var rel := ops.diffPaths(env.componentFilePathMap[name], dir.value);
        if rel.None? then Panic(NO_RELATIVE_PATH_PANIC)
        else Ok("./" + ReplaceAll(rel.value, ".yaml", ".tsp"))
  }

  /** The concatenation of some sequences, in order. */
  function Flatten<T>(ss: seq<seq<T>>): seq<T>
    decreases |ss|
  {
    if ss == [] then [] else Flatten(ss[..|ss| - 1]) + ss[|ss| - 1]
  }

  /** The names of the models a content refers to, in the order the import
      collector visits them. */
  function ModelRefs(c: ModelContent): seq<string>
    decreases c, 1
  {
    match c
    case Record(ps) => Flatten(PropertyRefs(ps))
    case ArrayOf(item) => ModelRefs(item)
    case Union(_) => Flatten(MemberRefs(c))
    case Intersect(_) => Flatten(MemberRefs(c))
    case ModelRef(name) => [name]
    case _ => []
  }

  /** The references of each property value of a record. */
  function PropertyRefs(ps: seq<RecordProperty>): (r: seq<seq<string>>)
    ensures |r| == |ps|
    decreases Record(ps), 0
  {
    seq(|ps|, i requires 0 <= i < |ps| => ModelRefs(ps[i].value))
  }

  /** The references of each member of a union or an intersection. */
  function MemberRefs(c: ModelContent): (r: seq<seq<string>>)
    requires c.Union? || c.Intersect?
    ensures |r| == |c.members|
    decreases c, 0
  {
    seq(|c.members|, i requires 0 <= i < |c.members| => ModelRefs(c.members[i]))
  }

  /** One import per referenced name, in order; the first panic of
      `get_import_path` ends the collection. */
  function ImportsFor(names: seq<string>, currentFile: string, env: CompilerEnv, ops: RelPathOps): (r: Result<seq<ImportLib>>)
    ensures r.Ok? <==> forall i :: 0 <= i < |names| ==> ImportPath(names[i], currentFile, env, ops).Ok?
    ensures r.Ok? ==> |r.value| == |names|
    ensures r.Ok? ==> forall i :: 0 <= i < |names| ==> r.value[i] == ImportLib(ImportPath(names[i], currentFile, env, ops).value)
    ensures !r.Err?
    decreases |names|
  {
    if names == [] then Ok([])
    else
      var init :- ImportsFor(names[..|names| - 1], currentFile, env, ops);
      var path :- ImportPath(names[|names| - 1], currentFile, env, ops);
      Ok(init + [ImportLib(path)])
  }

  lemma FlattenSnoc<T>(ss: seq<seq<T>>, i: nat)
    requires i < |ss|
    ensures Flatten(ss[..i + 1]) == Flatten(ss[..i]) + ss[i]
  {
    assert ss[..i + 1][..i] == ss[..i];
  }

  /** Flattening splits at any point. */
  lemma {:induction false} FlattenSplit<T>(ss: seq<seq<T>>, k: nat)
    requires k <= |ss|
    ensures Flatten(ss) == Flatten(ss[..k]) + Flatten(ss[k..])
    decreases |ss|
  {
    if k == |ss| {
      assert ss[..k] == ss;
      assert ss[k..] == [];
    } else {
      var n := |ss|;
      FlattenSplit(ss[..n - 1], k);
      assert ss[..n - 1][..k] == ss[..k];
      assert ss[k..][..|ss[k..]| - 1] == ss[..n - 1][k..];
      assert ss[k..][|ss[k..]| - 1] == ss[n - 1];
    }
  }

  /** Collecting the imports of two runs of names one after the other. */
  lemma {:induction false} ImportsForAppend(a: seq<string>, b: seq<string>, currentFile: string, env: CompilerEnv, ops: RelPathOps)
    ensures !ImportsFor(a, currentFile, env, ops).Ok? ==>
      ImportsFor(a + b, currentFile, env, ops) == ImportsFor(a, currentFile, env, ops)
    ensures ImportsFor(a, currentFile, env, ops).Ok? && !ImportsFor(b, currentFile, env, ops).Ok? ==>
      ImportsFor(a + b, currentFile, env, ops) == ImportsFor(b, currentFile, env, ops)
    ensures ImportsFor(a, currentFile, env, ops).Ok? && ImportsFor(b, currentFile, env, ops).Ok? ==>
      ImportsFor(a + b, currentFile, env, ops) == Ok(ImportsFor(a, currentFile, env, ops).value + ImportsFor(b, currentFile, env, ops).value)
    decreases |b|
  {
    if b == [] {
      assert a + b == a;
      if ImportsFor(a, currentFile, env, ops).Ok? {
        assert ImportsFor(a, currentFile, env, ops).value + [] == ImportsFor(a, currentFile, env, ops).value;
      }
    } else {
      var b' := b[..|b| - 1];
      var x := b[|b| - 1];
      ImportsForAppend(a, b', currentFile, env, ops);
      assert (a + b)[..|a + b| - 1] == a + b';
      assert (a + b)[|a + b| - 1] == x;
      var A := ImportsFor(a, currentFile, env, ops);
      var B' := ImportsFor(b', currentFile, env, ops);
      var P := ImportPath(x, currentFile, env, ops);
      if A.Ok? && B'.Ok? && P.Ok? {
        assert ImportsFor(b, currentFile, env, ops) == Ok(B'.value + [ImportLib(P.value)]);
        assert ImportsFor(a + b, currentFile, env, ops) == Ok(A.value + B'.value + [ImportLib(P.value)]);
        assert A.value + B'.value + [ImportLib(P.value)] == A.value + (B'.value + [ImportLib(P.value)]);
      }
    }
  }

  /** `build_import_lib_nodes_from_model_content_node`. */
  method ContentImports(c: ModelContent, currentFile: string, env: CompilerEnv, ops: RelPathOps) returns (r: Result<seq<ImportLib>>)
    ensures r == ImportsFor(ModelRefs(c), currentFile, env, ops)
    decreases c, 1
  {
    match c
    case Record(ps) =>
      r := RecordImports(ps, currentFile, env, ops);
    case ArrayOf(item) =>
      r := ContentImports(item, currentFile, env, ops);
    case ModelRef(name) =>
      assert [name][..0] == [];
      var path := ImportPath(name, currentFile, env, ops);
      if !path.Ok? {
        return path.PropagateFailure();
      }
      r := Ok([ImportLib(path.value)]);
      assert ImportsFor([], currentFile, env, ops) == Ok([]);
      assert [] + [ImportLib(path.value)] == [ImportLib(path.value)];
    case Union(_) =>
      r := MemberImports(c, currentFile, env, ops);
    case Intersect(_) =>
      r := MemberImports(c, currentFile, env, ops);
    case _ =>
      r := Ok([]);
  }

  /** The `for_each` over the members of a union or an intersection. */
  method MemberImports(c: ModelContent, currentFile: string, env: CompilerEnv, ops: RelPathOps) returns (r: Result<seq<ImportLib>>)
    requires c.Union? || c.Intersect?
    ensures r == ImportsFor(Flatten(MemberRefs(c)), currentFile, env, ops)
    decreases c, 0
  {
    var refs := MemberRefs(c);
    r := Ok([]);
    var i := 0;
    while i < |c.members|
      invariant 0 <= i <= |c.members|
      invariant r.Ok? && r == ImportsFor(Flatten(refs[..i]), currentFile, env, ops)
    {
      var sub := ContentImports(c.members[i], currentFile, env, ops);
      FlattenSnoc(refs, i);
      ImportsForAppend(Flatten(refs[..i]), refs[i], currentFile, env, ops);
      if !sub.Ok? {
        FlattenSplit(refs, i + 1);
        ImportsForAppend(Flatten(refs[..i + 1]), Flatten(refs[i + 1..]), currentFile, env, ops);
        assert refs == refs[..|refs|];
        return sub;
      }
      r := Ok(r.value + sub.value);
      i := i + 1;
    }
    assert refs[..i] == refs;
  }

  /** `build_import_lib_nodes_from_record_model_node`, which
      `build_import_lib_nodes_from_model_node` applies to a model's
      record. */
  method RecordImports(ps: seq<RecordProperty>, currentFile: string, env: CompilerEnv, ops: RelPathOps) returns (r: Result<seq<ImportLib>>)
    ensures r == ImportsFor(Flatten(PropertyRefs(ps)), currentFile, env, ops)
    decreases Record(ps), 0
  {
    var refs := PropertyRefs(ps);
    r := Ok([]);
    var i := 0;
    while i < |ps|
      invariant 0 <= i <= |ps|
      invariant r.Ok? && r == ImportsFor(Flatten(refs[..i]), currentFile, env, ops)
    {
      var sub := ContentImports(ps[i].value, currentFile, env, ops);
      FlattenSnoc(refs, i);
      ImportsForAppend(Flatten(refs[..i]), refs[i], currentFile, env, ops);
      if !sub.Ok? {
        FlattenSplit(refs, i + 1);
        ImportsForAppend(Flatten(refs[..i + 1]), Flatten(refs[i + 1..]), currentFile, env, ops);
        return sub;
      }
      r := Ok(r.value + sub.value);
      i := i + 1;
    }
    assert refs[..i] == refs;
  }
}
