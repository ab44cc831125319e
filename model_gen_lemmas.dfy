/** Properties of the model builders and of the import collector. */
module ModelGenLemmas {
  import opened Wrappers
  import opened YamlModel
  import opened SchemaNodes
  import opened SchemaBuilder
  import opened TypeSpecAst
  import opened PostProcessLemmas
  import opened ModelGen
  import Strings
  import CompilerEnvironment

  /** A string property carries a decorator exactly for each constraint
      its schema sets, with the constraint's value. */
  lemma StringDecoratorsPresent(s: StringNode)
    ensures forall p :: PatternDecorator(p) in StringDecorators(s) <==> s.pattern == Some(p)
    ensures forall f :: FormatDecorator(f) in StringDecorators(s) <==> s.format.Some? && f == StringFormatName(s.format.value)
    ensures forall m: usize :: MinLengthDecorator(m) in StringDecorators(s) <==> s.minLength == Some(m)
    ensures forall m: usize :: MaxLengthDecorator(m) in StringDecorators(s) <==> s.maxLength == Some(m)
    ensures forall i :: 0 <= i < |StringDecorators(s)| ==> DecoratorRank(StringDecorators(s)[i]) < 4
  {
  }

  /** The decorators come in the order pattern, format, minLength,
      maxLength. */
  lemma StringDecoratorsOrdered(s: StringNode)
    ensures forall i, j :: 0 <= i < j < |StringDecorators(s)| ==>
      DecoratorRank(StringDecorators(s)[i]) < DecoratorRank(StringDecorators(s)[j])
  {
    var p := if s.pattern.Some? then [PatternDecorator(s.pattern.value)] else [];
    var f := if s.format.Some? then [FormatDecorator(StringFormatName(s.format.value))] else [];
    var mn := if s.minLength.Some? then [MinLengthDecorator(s.minLength.value)] else [];
    var mx := if s.maxLength.Some? then [MaxLengthDecorator(s.maxLength.value)] else [];
    var r := StringDecorators(s);
    assert r == p + f + mn + mx;
    forall i | 0 <= i < |r|
      ensures DecoratorRank(r[i]) ==
        if i < |p| then 0 else if i < |p| + |f| then 1 else if i < |p| + |f| + |mn| then 2 else 3
    {
    }
  }

  /** The component names a schema node refers to, in the order of its
      array items, properties and oneOf/allOf members. */
  function SchemaRefs(n: DataModelNode): seq<string>
    decreases n
  {
    match n
    case ArrayModel(a) => SchemaRefs(a.items)
    case ObjectModel(o) => Flatten(seq(|o.properties|, j requires 0 <= j < |o.properties| => SchemaRefs(o.properties[j].value)))
    case OneOfModel(o) => Flatten(seq(|o.items|, j requires 0 <= j < |o.items| => SchemaRefs(o.items[j])))
    case AllOfModel(o) => Flatten(seq(|o.items|, j requires 0 <= j < |o.items| => SchemaRefs(o.items[j])))
    case RefModel(r) => if r.ComponentRef? then [r.componentName] else []
    case _ => []
  }

  lemma {:induction false} FlattenEmpties<T>(ss: seq<seq<T>>)
    requires forall i :: 0 <= i < |ss| ==> ss[i] == []
    ensures Flatten(ss) == []
    decreases |ss|
  {
    if ss != [] {
      FlattenEmpties(ss[..|ss| - 1]);
    }
  }

  /** The generated content refers to the models of exactly the
      components the schema refers to, in the same order: the import
      collector emits one import per component reference of the schema. */
  lemma {:induction false} ContentRefs(n: DataModelNode)
    requires NoFileRef(n)
    ensures ModelRefs(ContentOf(n).value) == SchemaRefs(n)
    decreases n, 2
  {
    match n
    case ArrayModel(a) =>
      ContentRefs(a.items);
    case ObjectModel(o) =>
      RecordRefs(o);
    case OneOfModel(o) =>
      OneOfRefs(o);
    case AllOfModel(o) =>
      AllOfRefs(o);
    case _ =>
  }

  /** The same for the properties of an object. */
  lemma {:induction false} RecordRefs(o: ObjectNode)
    requires NoFileRef(ObjectModel(o))
    ensures Flatten(PropertyRefs(RecordOf(o).value)) == SchemaRefs(ObjectModel(o))
    decreases ObjectModel(o), 1
  {
    var props := RecordOf(o).value;
    var want := seq(|o.properties|, j requires 0 <= j < |o.properties| => SchemaRefs(o.properties[j].value));
    forall j | 0 <= j < |o.properties|
      ensures PropertyRefs(props)[j] == want[j]
    {
      assert PropertyOf(o.properties[j]) == Ok(props[j]);
      PropertyRefsAgree(o.properties[j]);
    }
    assert PropertyRefs(props) == want;
  }

  /** The same for the members of a oneOf. */
  lemma {:induction false} OneOfRefs(o: OneOfNode)
    requires NoFileRef(OneOfModel(o))
    ensures ModelRefs(ContentOf(OneOfModel(o)).value) == SchemaRefs(OneOfModel(o))
    decreases OneOfModel(o), 1
  {
    var c := ContentOf(OneOfModel(o)).value;
    var want := seq(|o.items|, j requires 0 <= j < |o.items| => SchemaRefs(o.items[j]));
    forall j | 0 <= j < |o.items|
      ensures MemberRefs(c)[j] == want[j]
    {
      ContentRefs(o.items[j]);
    }
    assert MemberRefs(c) == want;
  }

  /** The same for the members of an allOf. */
  lemma {:induction false} AllOfRefs(o: AllOfNode)
    requires NoFileRef(AllOfModel(o))
    ensures ModelRefs(ContentOf(AllOfModel(o)).value) == SchemaRefs(AllOfModel(o))
    decreases AllOfModel(o), 1
  {
    var c := ContentOf(AllOfModel(o)).value;
    var want := seq(|o.items|, j requires 0 <= j < |o.items| => SchemaRefs(o.items[j]));
    forall j | 0 <= j < |o.items|
      ensures MemberRefs(c)[j] == want[j]
    {
      ContentRefs(o.items[j]);
    }
    assert MemberRefs(c) == want;
  }

  /** The same for one property, whose string schema may have become a
      union of literals. */
  lemma {:induction false} PropertyRefsAgree(p: PropertyNode)
    requires NoFileRef(p.value)
    ensures ModelRefs(PropertyOf(p).value.value) == SchemaRefs(p.value)
    decreases p.value, 3
  {
    if p.value.StringModel? {
      var c := PropertyOf(p).value.value;
      if c.Union? {
        forall i | 0 <= i < |c.members|
          ensures MemberRefs(c)[i] == []
        {
          assert c.members[i].StringLiteral?;
        }
        FlattenEmpties(MemberRefs(c));
      }
    } else {
      ContentRefs(p.value);
    }
  }

  /** The imports of a model are those of the component references of
      its object schema, one each and in order. */
  lemma ModelImports(o: ObjectNode, currentFile: string, env: CompilerEnvironment.CompilerEnv, ops: RelPathOps)
    requires ModelNodeOf(o).Ok?
    ensures ImportsFor(Flatten(PropertyRefs(ModelNodeOf(o).value.record)), currentFile, env, ops)
         == ImportsFor(SchemaRefs(ObjectModel(o)), currentFile, env, ops)
  {
    RecordRefs(o);
  }

  /** A component defined in a YAML file is imported from the TypeSpec
      file generated for it: the relative path's trailing ".yaml" becomes
      ".tsp", behind "./". */
  lemma YamlImportBecomesTsp(name: string, currentFile: string, env: CompilerEnvironment.CompilerEnv, ops: RelPathOps)
    requires name in env.componentFilePathMap
    requires ops.parent(currentFile).Some?
    requires ops.diffPaths(env.componentFilePathMap[name], ops.parent(currentFile).value).Some?
    requires Strings.EndsWith(ops.diffPaths(env.componentFilePathMap[name], ops.parent(currentFile).value).value, ".yaml")
    ensures ImportPath(name, currentFile, env, ops).Ok?
    ensures Strings.StartsWith(ImportPath(name, currentFile, env, ops).value, "./")
    ensures Strings.EndsWith(ImportPath(name, currentFile, env, ops).value, ".tsp")
  {
    var rel := ops.diffPaths(env.componentFilePathMap[name], ops.parent(currentFile).value).value;
    Strings.ReplaceAllTrailing(rel, ".yaml", ".tsp");
    var t := Strings.ReplaceAll(rel, ".yaml", ".tsp");
    assert ("./" + t)[|"./" + t| - 4..] == t[|t| - 4..];
  }

  /** A relative path without ".yaml" in it is imported as it is, behind
      "./". */
  lemma PlainImportKept(name: string, currentFile: string, env: CompilerEnvironment.CompilerEnv, ops: RelPathOps)
    requires name in env.componentFilePathMap
    requires ops.parent(currentFile).Some?
    requires ops.diffPaths(env.componentFilePathMap[name], ops.parent(currentFile).value).Some?
    requires !Strings.Occurs(ops.diffPaths(env.componentFilePathMap[name], ops.parent(currentFile).value).value, ".yaml")
    ensures ImportPath(name, currentFile, env, ops)
         == Ok("./" + ops.diffPaths(env.componentFilePathMap[name], ops.parent(currentFile).value).value)
  {
    Strings.ReplaceAllAbsent(ops.diffPaths(env.componentFilePathMap[name], ops.parent(currentFile).value).value, ".yaml", ".tsp");
  }
}
