/** `cli/src/type_spec/node_builder/interface_node.rs`: the interface that
    wraps the operations of one path file, inside the service namespace,
    and the imports and usings it needs.

    The regular expression `(^((\w))|(_\w))` of `to_pascal_case` is
    written out as a scan; `\w` and upper-casing are taken over ASCII. */
module InterfaceGen {
  import opened Wrappers
  import opened Strings
  import opened SchemaBuilder
  import opened OperationNodes
  import opened TypeSpecAst
  import opened CompilerEnvironment
  import opened PostProcess
  import opened ModelGen
  import opened OperationGen

  /** `\w` over ASCII: a letter, a digit or an underscore. */
  predicate IsWordChar(c: char) {
    'a' <= c <= 'z' || 'A' <= c <= 'Z' || '0' <= c <= '9' || c == '_'
  }

  /** The matches of `_\w` from some position on: each becomes its word
      character upper-cased; everything else is copied. */
  function RaiseAfterUnderscores(t: string): (r: string)
    ensures |r| <= |t|
    decreases |t|
  {
    if |t| >= 2 && t[0] == '_' && IsWordChar(t[1]) then [AsciiUpper(t[1])] + RaiseAfterUnderscores(t[2..])
    else if t == [] then []
    else [t[0]] + RaiseAfterUnderscores(t[1..])
  }

  /** `to_pascal_case`: braces removed, then the replacements of the
      regular expression. At the start the first alternative `^\w` wins:
      a leading word character is upper-cased, and a leading underscore is
      dropped. */
  function ToPascalCase(s: string): (r: string)
    ensures |r| <= |s|
  {
    var t := ReplaceAll(ReplaceAll(s, "{", ""), "}", "");
    assert |t| <= |s| by {
      ReplaceCharByNothing(s, '{');
      ReplaceCharByNothing(ReplaceAll(s, "{", ""), '}');
      WithoutShorter(s, '{');
      WithoutShorter(ReplaceAll(s, "{", ""), '}');
    }
    if t != [] && IsWordChar(t[0]) then
      (if t[0] == '_' then [] else [AsciiUpper(t[0])]) + RaiseAfterUnderscores(t[1..])
    else RaiseAfterUnderscores(t)
  }

  lemma {:induction false} WithoutShorter(s: string, c: char)
    ensures |Without(s, c)| <= |s|
    decreases |s|
  {
    if s != [] {
      WithoutShorter(s[1..], c);
    }
  }

  /** `str::split` on one character: the pieces between the separators,
      with an empty piece before a leading, after a trailing and between
      two adjacent separators. */
  function Split(s: string, sep: char): (r: seq<string>)
    ensures |r| >= 1
    decreases |s|
  {
    if s == [] then [""]
    else
      var rest := Split(s[1..], sep);
      if s[0] == sep then [""] + rest else [[s[0]] + rest[0]] + rest[1..]
  }

  const ROUTE_PANIC: string := "Failed to get route"
  /** Slicing `[1..]` of an empty route. */
  const EMPTY_ROUTE_PANIC: string := "byte index 1 is out of range of ``"

  /** The interface name of a route: the route without its first
      character, split on "/", each piece in Pascal case, concatenated. */
  function InterfaceName(route: string): (r: string)
    requires |route| > 0
    ensures |route| == 1 ==> r == ""
  {
    var pieces := Split(route[1..], '/');
    Join(seq(|pieces|, i requires 0 <= i < |pieces| => ToPascalCase(pieces[i])), "")
  }

  /** The operations of the file, each converted. */
  function OperationOutcomes(operations: seq<OperationNode>): (r: seq<Result<TsOperation>>)
    ensures |r| == |operations| && forall i :: 0 <= i < |operations| ==> r[i] == OperationOf(operations[i])
  {
    seq(|operations|, i requires 0 <= i < |operations| => OperationOf(operations[i]))
  }

  /** `build_wrapped_interface_node`: the route of the file (looked up
      under its `.yaml` name), then the interface named after the route,
      decorated with it and holding the converted operations, alone in a
      namespace named after the service. */
  function BuildWrappedInterface(operations: seq<OperationNode>, currentFileName: string, env: CompilerEnv): (r: Result<TsNamespace>)
    ensures ReplaceAll(currentFileName, ".tsp", ".yaml") !in env.pathFileMap ==> r == Panic(ROUTE_PANIC)
    ensures r.Ok? ==>
      var route := env.pathFileMap[ReplaceAll(currentFileName, ".tsp", ".yaml")];
      && route != ""
      && r.value.decorators == []
      && r.value.name == env.namespace
      && |r.value.contents| == 1
      && r.value.contents[0].Interface?
      && r.value.contents[0].interface.decorators == [RouteDecorator(route)]
      && r.value.contents[0].interface.name == InterfaceName(route)
      && |r.value.contents[0].interface.operations| == |operations|
      && forall i :: 0 <= i < |operations| ==> OperationOf(operations[i]) == Ok(r.value.contents[0].interface.operations[i])
    ensures r.Ok? <==>
      && ReplaceAll(currentFileName, ".tsp", ".yaml") in env.pathFileMap
      && env.pathFileMap[ReplaceAll(currentFileName, ".tsp", ".yaml")] != ""
      && forall i :: 0 <= i < |operations| ==> OperationOf(operations[i]).Ok?
  {
    var key := ReplaceAll(currentFileName, ".tsp", ".yaml");
    if key !in env.pathFileMap then Panic(ROUTE_PANIC)
    else
      var route := env.pathFileMap[key];
      if route == [] then Panic(EMPTY_ROUTE_PANIC)
      else
        var name := InterfaceName(route);
        var built :- Collect(OperationOutcomes(operations));
        Ok(TsNamespace([], env.namespace, [Interface(TsInterface(name, [RouteDecorator(route)], built))]))
  }

  /** The imports of each operation of an interface. */
  function OperationImportOutcomes(operations: seq<TsOperation>, currentFile: string, env: CompilerEnv, ops: RelPathOps): (r: seq<Result<seq<ImportLib>>>)
    ensures |r| == |operations| && forall i :: 0 <= i < |operations| ==> r[i] == OperationImports(operations[i], currentFile, env, ops)
  {
    seq(|operations|, i requires 0 <= i < |operations| => OperationImports(operations[i], currentFile, env, ops))
  }

  /** The imports `build_import_lib_nodes_from_interface_node` collects:
      the interface's decorators, then each operation in order. */
  function InterfaceImports(iface: TsInterface, currentFile: string, env: CompilerEnv, ops: RelPathOps): Result<seq<ImportLib>> {
    var operations :- Concatenated(OperationImportOutcomes(iface.operations, currentFile, env, ops));
    Ok(DecoratorLibs(iface.decorators) + operations)
  }

  /** The operation loop of `build_import_lib_nodes_from_interface_node`. */
  method CollectAllOperationImports(operations: seq<TsOperation>, currentFile: string, env: CompilerEnv, ops: RelPathOps) returns (r: Result<seq<ImportLib>>)
    ensures r == Concatenated(OperationImportOutcomes(operations, currentFile, env, ops))
  {
    var outcomes := OperationImportOutcomes(operations, currentFile, env, ops);
    var imports := [];
    var i := 0;
    while i < |operations|
      invariant 0 <= i <= |operations|
      invariant Concatenated(outcomes[..i]) == Ok(imports)
    {
      var sub := CollectOperationImports(operations[i], currentFile, env, ops);
      assert sub == outcomes[i];
      ConcatenatedStep(outcomes, i, imports);
      if !sub.Ok? {
        return sub.PropagateFailure();
      }
      imports := imports + sub.value;
      i := i + 1;
    }
    assert outcomes[..i] == outcomes;
    r := Ok(imports);
  }

  /** `build_import_lib_nodes_from_interface_node`. */
  method CollectInterfaceImports(iface: TsInterface, currentFile: string, env: CompilerEnv, ops: RelPathOps) returns (r: Result<seq<ImportLib>>)
    ensures r == InterfaceImports(iface, currentFile, env, ops)
  {
    var imports, _ := CollectDecoratorLibs(iface.decorators);
    var operations := CollectAllOperationImports(iface.operations, currentFile, env, ops);
    if !operations.Ok? {
      return operations.PropagateFailure();
    }
    r := Ok(imports + operations.value);
  }

  /** `build_using_namespace_nodes_from_interface_node`. */
  method CollectInterfaceUsings(iface: TsInterface) returns (usings: seq<UsingNamespace>)
    ensures usings == DecoratorUsings(iface.decorators)
  {
    usings := [];
    var i := 0;
    while i < |iface.decorators|
      invariant 0 <= i <= |iface.decorators|
      invariant usings == DecoratorUsings(iface.decorators[..i])
    {
      assert iface.decorators[..i + 1][..i] == iface.decorators[..i];
      var namespace := iface.decorators[i].NamespaceName();
      if namespace.Some? {
        usings := usings + [UsingNamespace(namespace.value)];
      }
      i := i + 1;
    }
    assert iface.decorators[..i] == iface.decorators;
  }
}
