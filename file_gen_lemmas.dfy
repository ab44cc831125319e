/** Properties of the file builder: what its imports, usings and contents
    hold. */
module FileGenLemmas {
  import opened Wrappers
  import opened SchemaBuilder
  import opened OpenApiFile
  import opened TypeSpecAst
  import opened CompilerEnvironment
  import opened ModelGen
  import opened OperationGen
  import opened TypeSpecGen
  import opened FileGen

  /** Each import gathered from the nodes occurs once, whatever the
      number of nodes that need it; the items of the first `Imports` node
      come on top, as often as they are listed there. */
  lemma FileImportCounts(file: FileNode, env: CompilerEnv, fileName: string -> Option<string>, build: ContentsBuilder, ops: RelPathOps)
    requires TypeSpecFileOf(file, env, fileName, build, ops).Ok?
    ensures var contents := build(file.contents, fileName(OutputPath(file.path)).value, env).value;
      var collected := Concatenated(NodeImportOutcomes(contents, file.path, env, ops)).value;
      var explicit := FirstImports(contents);
      forall x :: TypeSpecFileOf(file, env, fileName, build, ops).value.imports[x] ==
        (if x in collected then 1 else 0) + (if explicit.Some? then multiset(explicit.value)[x] else 0)
  {
    var contents := build(file.contents, fileName(OutputPath(file.path)).value, env).value;
    var collected := Concatenated(NodeImportOutcomes(contents, file.path, env, ops)).value;
    var libraries := FileLibraries(contents, file.path, env, ops).value;
    assert libraries.imports == Elements(collected);
    forall x
      ensures multiset(libraries.imports)[x] == if x in collected then 1 else 0
    {
    }
  }

  /** The usings are exactly those of the built nodes. */
  lemma FileUsingsExact(file: FileNode, env: CompilerEnv, fileName: string -> Option<string>, build: ContentsBuilder, ops: RelPathOps)
    requires TypeSpecFileOf(file, env, fileName, build, ops).Ok?
    ensures var contents := build(file.contents, fileName(OutputPath(file.path)).value, env).value;
      forall u :: u in TypeSpecFileOf(file, env, fileName, build, ops).value.namespaces <==> u in FileUsings(contents)
  {
  }

  /** Dropping the `Imports` nodes keeps the others in their order. */
  lemma {:induction false} WithoutImportsAppend(a: seq<TsNode>, b: seq<TsNode>)
    ensures WithoutImports(a + b) == WithoutImports(a) + WithoutImports(b)
    decreases |a|
  {
    if a == [] {
      assert a + b == b;
    } else {
      assert (a + b)[0] == a[0];
      assert (a + b)[1..] == a[1..] + b;
      WithoutImportsAppend(a[1..], b);
    }
  }

  /** Nodes without an `Imports` node among them pass unchanged. */
  lemma {:induction false} WithoutImportsNone(contents: seq<TsNode>)
    requires forall i :: 0 <= i < |contents| ==> !contents[i].Imports?
    ensures WithoutImports(contents) == contents
    decreases |contents|
  {
    if contents != [] {
      WithoutImportsNone(contents[1..]);
    }
  }

  /** With the contents builder of the type-spec node module, which never
      builds an `Imports` node, the file holds the built nodes as they are
      and no import twice. */
  lemma SourceBuilderFile(file: FileNode, env: CompilerEnv, fileName: string -> Option<string>, ops: RelPathOps)
    requires TypeSpecFileOf(file, env, fileName, SourceContents, ops).Ok?
    ensures TypeSpecFileOf(file, env, fileName, SourceContents, ops).value.contents == ContentsOf(file.contents, env).value
    ensures forall x :: TypeSpecFileOf(file, env, fileName, SourceContents, ops).value.imports[x] <= 1
  {
    var contents := ContentsOf(file.contents, env).value;
    assert FirstImports(contents).None?;
    FileImportCounts(file, env, fileName, SourceContents, ops);
  }

  /** Only the first `Imports` node is read: the items of a second one are
      dropped together with it. */
  lemma SecondImportsDropped(file: FileNode, env: CompilerEnv, fileName: string -> Option<string>, build: ContentsBuilder, ops: RelPathOps)
    requires fileName(OutputPath(file.path)).Some?
    requires build(file.contents, fileName(OutputPath(file.path)).value, env) == Ok([Imports([ImportLib("a")]), Imports([ImportLib("b")])])
    ensures TypeSpecFileOf(file, env, fileName, build, ops) == Ok(TsFile(OutputPath(file.path), multiset{ImportLib("a")}, {}, []))
  {
    var contents := [Imports([ImportLib("a")]), Imports([ImportLib("b")])];
    var outcomes := NodeImportOutcomes(contents, file.path, env, ops);
    assert outcomes[0] == Ok([]) && outcomes[1] == Ok([]);
    var parts := Collect(outcomes).value;
    assert parts[0] == [] && parts[1] == [];
    assert parts[..1][..0] == [];
    assert Flatten(parts[..1]) == [];
    assert Concatenated(outcomes) == Ok([]);
    assert contents[..1][..0] == [];
    assert FileUsings(contents) == [];
    assert Elements<ImportLib>([]) == {};
    assert Elements<UsingNamespace>([]) == {};
    assert contents[1..][1..] == [];
    assert WithoutImports(contents) == [];
    assert FileLibraries(contents, file.path, env, ops) == Ok(Libraries({}, {}));
    assert FirstImports(contents) == Some([ImportLib("a")]);
    assert multiset{} + multiset([ImportLib("a")]) == multiset{ImportLib("a")};
    var name := fileName(OutputPath(file.path)).value;
    assert build(file.contents, name, env).value == contents;
    var none: set<ImportLib> := {};
    assert multiset(none) == multiset{};
  }

  /** The generator takes no file reference: a file whose object data
      model still holds one panics, so the rewrite of file references must
      come before generation. */
  lemma FileRefPanics(file: FileNode, env: CompilerEnv, fileName: string -> Option<string>, ops: RelPathOps, i: nat)
    requires fileName(OutputPath(file.path)).Some?
    requires i < |file.contents| && !Generable(file.contents[i])
    ensures TypeSpecFileOf(file, env, fileName, SourceContents, ops) == Panic(UNEXPECTED_REF)
  {
  }
}
