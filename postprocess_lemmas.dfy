/** Properties of the post-processing passes. */
module PostProcessLemmas {
  import opened Wrappers
  import opened SchemaNodes
  import opened SchemaBuilder
  import opened OperationNodes
  import opened OpenApiFile
  import opened PostProcess

  // ------------------------------------------------------------ examples

  /** A file survives `remove_examples` exactly when it was in the corpus
      and holds no example node. */
  lemma {:induction false} KeptFiles(files: seq<FileNode>, f: FileNode)
    ensures f in WithoutExamples(files) <==> f in files && !HasExample(f)
    decreases |files|
  {
    if files != [] {
      var init := files[..|files| - 1];
      KeptFiles(init, f);
      assert files == init + [files[|files| - 1]];
    }
  }

  /** Removing examples from a concatenation removes them from each part
      and keeps the parts in order: the surviving files keep their
      relative order. */
  lemma {:induction false} WithoutExamplesAppend(a: seq<FileNode>, b: seq<FileNode>)
    ensures WithoutExamples(a + b) == WithoutExamples(a) + WithoutExamples(b)
    decreases |b|
  {
    if b == [] {
      assert a + b == a;
    } else {
      var init := b[..|b| - 1];
      var last := b[|b| - 1];
      WithoutExamplesAppend(a, init);
      assert (a + b)[..|a + b| - 1] == a + init;
      assert (a + b)[|a + b| - 1] == last;
    }
  }

  /** The result is no longer than the corpus. */
  lemma {:induction false} WithoutExamplesShorter(files: seq<FileNode>)
    ensures |WithoutExamples(files)| <= |files|
    decreases |files|
  {
    if files != [] {
      WithoutExamplesShorter(files[..|files| - 1]);
    }
  }

  /** Removing examples a second time changes nothing. */
  lemma {:induction false} WithoutExamplesIdempotent(files: seq<FileNode>)
    ensures WithoutExamples(WithoutExamples(files)) == WithoutExamples(files)
    decreases |files|
  {
    if files != [] {
      var init := files[..|files| - 1];
      var last := files[|files| - 1];
      WithoutExamplesIdempotent(init);
      var kept := WithoutExamples(init);
      if !HasExample(last) {
        var both := kept + [last];
        assert both[..|both| - 1] == kept && both[|both| - 1] == last;
        assert WithoutExamples(both) == WithoutExamples(kept) + [last];
        assert WithoutExamples(files) == both;
      } else {
        assert WithoutExamples(files) == kept + [];
        assert kept + [] == kept;
      }
    }
  }

  // ---------------------------------------------------------- parameters

  /** Listing distributes over concatenation of contents. */
  lemma {:induction false} ListAppend(a: seq<OpenApiNode>, b: seq<OpenApiNode>)
    ensures ListParameterNodes(a + b) == ListParameterNodes(a) + ListParameterNodes(b)
    decreases |b|
  {
    if b == [] {
      assert a + b == a;
    } else {
      var init := b[..|b| - 1];
      var last := b[|b| - 1];
      assert (a + b)[..|a + b| - 1] == a + init;
      ListAppend(a, init);
    }
  }

  /** A parameter is listed exactly when some `Parameters` node holds it. */
  lemma {:induction false} Listed(contents: seq<OpenApiNode>, p: ParameterNode)
    ensures p in ListParameterNodes(contents) <==>
      exists i :: 0 <= i < |contents| && contents[i].Parameters? && p in contents[i].parameters
    decreases |contents|
  {
    if contents != [] {
      var init := contents[..|contents| - 1];
      Listed(init, p);
      if p in ListParameterNodes(contents) && p !in ListParameterNodes(init) {
        assert contents[|contents| - 1].Parameters? && p in contents[|contents| - 1].parameters;
      }
      if exists i :: 0 <= i < |contents| && contents[i].Parameters? && p in contents[i].parameters {
        var i :| 0 <= i < |contents| && contents[i].Parameters? && p in contents[i].parameters;
        if i < |init| {
          assert init[i] == contents[i];
        }
      }
    }
  }

  /** The added parameters are exactly the group members whose name is not
      among the operation's own. */
  lemma {:induction false} MissingMembers(names: set<string>, group: seq<ParameterNode>, p: ParameterNode)
    ensures p in Missing(names, group) <==> p in group && p.name !in names
    decreases |group|
  {
    if group != [] {
      var init := group[..|group| - 1];
      MissingMembers(names, init, p);
      assert group == init + [group[|group| - 1]];
    }
  }

  /** Nothing is missing from a group whose names are all present. */
  lemma {:induction false} NothingMissing(names: set<string>, group: seq<ParameterNode>)
    requires forall i :: 0 <= i < |group| ==> group[i].name in names
    ensures Missing(names, group) == []
    decreases |group|
  {
    if group != [] {
      NothingMissing(names, group[..|group| - 1]);
    }
  }

  /** An extended operation keeps its own parameters first and unchanged;
      every added parameter comes from the group and has a name the
      operation did not have; every group member whose name it lacked is
      added; nothing but the parameters changes. */
  lemma ExtendedParameters(op: OperationNode, group: seq<ParameterNode>)
    ensures var ext := Extended(op, group);
      ext.parameters[..|op.parameters|] == op.parameters &&
      ext == op.(parameters := ext.parameters) &&
      (forall p :: p in ext.parameters[|op.parameters|..] <==> p in group && p.name !in Names(op.parameters))
  {
    var ext := Extended(op, group);
    assert ext.parameters[|op.parameters|..] == Missing(Names(op.parameters), group);
    forall p
      ensures p in ext.parameters[|op.parameters|..] <==> p in group && p.name !in Names(op.parameters)
    {
      MissingMembers(Names(op.parameters), group, p);
    }
  }

  /** Extending twice with the same group adds nothing more. */
  lemma ExtendIdempotent(op: OperationNode, group: seq<ParameterNode>)
    ensures Extended(Extended(op, group), group) == Extended(op, group)
  {
    var ext := Extended(op, group);
    forall i | 0 <= i < |group|
      ensures group[i].name in Names(ext.parameters)
    {
      var p := group[i];
      if p.name !in Names(op.parameters) {
        MissingMembers(Names(op.parameters), group, p);
        assert p in ext.parameters;
      } else {
        var q :| q in op.parameters && q.name == p.name;
        assert q in ext.parameters;
      }
    }
    NothingMissing(Names(ext.parameters), group);
    assert ext.parameters + [] == ext.parameters;
  }

  /** Extending by an empty group is the identity. */
  lemma ExtendByNothing(op: OperationNode)
    ensures Extended(op, []) == op
  {
    assert op.parameters + [] == op.parameters;
  }

  /** After the delete step no `Parameters` node is left. */
  lemma {:induction false} NoParametersLeft(contents: seq<OpenApiNode>)
    ensures forall i :: 0 <= i < |DeleteParameters(contents)| ==> !DeleteParameters(contents)[i].Parameters?
    decreases |contents|
  {
    if contents != [] {
      NoParametersLeft(contents[..|contents| - 1]);
    }
  }

  /** Deleting `Parameters` nodes when none is left changes nothing. */
  lemma {:induction false} DeleteNothing(contents: seq<OpenApiNode>)
    requires forall i :: 0 <= i < |contents| ==> !contents[i].Parameters?
    ensures DeleteParameters(contents) == contents
    decreases |contents|
  {
    if contents != [] {
      DeleteNothing(contents[..|contents| - 1]);
      assert contents[..|contents| - 1] + [contents[|contents| - 1]] == contents;
    }
  }

  /** Nothing is listed from contents without `Parameters` nodes. */
  lemma {:induction false} ListNothing(contents: seq<OpenApiNode>)
    requires forall i :: 0 <= i < |contents| ==> !contents[i].Parameters?
    ensures ListParameterNodes(contents) == []
    decreases |contents|
  {
    if contents != [] {
      ListNothing(contents[..|contents| - 1]);
    }
  }

  /** Inserting then deleting is deleting then inserting: the merged
      contents are the non-`Parameters` nodes, in order, with every
      operation extended. */
  lemma {:induction false} DeleteAfterInsert(contents: seq<OpenApiNode>, group: seq<ParameterNode>)
    ensures DeleteParameters(InsertParameters(contents, group)) == InsertParameters(DeleteParameters(contents), group)
    decreases |contents|
  {
    if contents != [] {
      var init := contents[..|contents| - 1];
      var last := contents[|contents| - 1];
      var ins := InsertParameters(contents, group);
      assert ins[..|ins| - 1] == InsertParameters(init, group);
      DeleteAfterInsert(init, group);
      var del := DeleteParameters(init);
      if !last.Parameters? {
        assert InsertParameters(del + [last], group) == InsertParameters(del, group) + [ins[|ins| - 1]];
      }
    }
  }

  /** Merging a file a second time changes nothing. */
  lemma MergeIdempotent(f: FileNode)
    ensures MergedFile(MergedFile(f)) == MergedFile(f)
  {
    var merged := MergedFile(f).contents;
    NoParametersLeft(InsertParameters(f.contents, ListParameterNodes(f.contents)));
    ListNothing(merged);
    forall i | 0 <= i < |merged|
      ensures InsertParameters(merged, [])[i] == merged[i]
    {
      if merged[i].Operation? {
        ExtendByNothing(merged[i].operation);
      }
    }
    DeleteNothing(InsertParameters(merged, []));
  }

  /** Every operation of a merged file is an operation of the original file
      extended by all parameters of the file's `Parameters` nodes. */
  lemma MergedOperations(f: FileNode)
    ensures var group := ListParameterNodes(f.contents);
      MergedFile(f).contents == InsertParameters(DeleteParameters(f.contents), group)
  {
    DeleteAfterInsert(f.contents, ListParameterNodes(f.contents));
  }

  // ----------------------------------------------------------- file refs

  /** A data model with no file reference left anywhere in it. */
  predicate NoFileRef(n: DataModelNode)
    decreases n
  {
    match n
    case ArrayModel(a) => NoFileRef(a.items)
    case ObjectModel(o) => forall j :: 0 <= j < |o.properties| ==> NoFileRef(o.properties[j].value)
    case OneOfModel(o) => forall j :: 0 <= j < |o.items| ==> NoFileRef(o.items[j])
    case AllOfModel(o) => forall j :: 0 <= j < |o.items| ==> NoFileRef(o.items[j])
    case RefModel(r) => r.ComponentRef?
    case _ => true
  }

  /** A successful rewrite leaves no file reference, and keeps the kind and
      title of the node. */
  lemma {:induction false} RewriteRemovesFileRefs(n: DataModelNode, path: string, ops: PathOps, components: ComponentFiles)
    requires RewriteModel(n, path, ops, components).Ok?
    ensures NoFileRef(RewriteModel(n, path, ops, components).value)
    ensures RewriteModel(n, path, ops, components).value.Title() == n.Title()
    decreases n
  {
    var r := RewriteModel(n, path, ops, components).value;
    match n
    case ArrayModel(a) =>
      RewriteRemovesFileRefs(a.items, path, ops, components);
    case ObjectModel(o) =>
      var rs := seq(|o.properties|, j requires 0 <= j < |o.properties| =>
        WithValue(o.properties[j], RewriteModel(o.properties[j].value, path, ops, components)));
      forall j | 0 <= j < |o.properties|
        ensures NoFileRef(r.objectNode.properties[j].value)
      {
        assert rs[j] == Ok(r.objectNode.properties[j]);
        RewriteRemovesFileRefs(o.properties[j].value, path, ops, components);
      }
    case OneOfModel(o) =>
      var rs := seq(|o.items|, j requires 0 <= j < |o.items| => RewriteModel(o.items[j], path, ops, components));
      forall j | 0 <= j < |o.items|
        ensures NoFileRef(r.oneOfNode.items[j])
      {
        assert rs[j] == Ok(r.oneOfNode.items[j]);
        RewriteRemovesFileRefs(o.items[j], path, ops, components);
      }
    case AllOfModel(o) =>
      var rs := seq(|o.items|, j requires 0 <= j < |o.items| => RewriteModel(o.items[j], path, ops, components));
      forall j | 0 <= j < |o.items|
        ensures NoFileRef(r.allOfNode.items[j])
      {
        assert rs[j] == Ok(r.allOfNode.items[j]);
        RewriteRemovesFileRefs(o.items[j], path, ops, components);
      }
    case _ =>
  }

  /** A model without file references is left exactly as it is; in
      particular the rewrite is idempotent. */
  lemma {:induction false} RewriteKeepsResolved(n: DataModelNode, path: string, ops: PathOps, components: ComponentFiles)
    requires NoFileRef(n)
    ensures RewriteModel(n, path, ops, components) == Ok(n)
    decreases n
  {
    match n
    case ArrayModel(a) =>
      RewriteKeepsResolved(a.items, path, ops, components);
    case ObjectModel(o) =>
      var rs := seq(|o.properties|, j requires 0 <= j < |o.properties| =>
        WithValue(o.properties[j], RewriteModel(o.properties[j].value, path, ops, components)));
      forall j | 0 <= j < |o.properties|
        ensures rs[j] == Ok(o.properties[j])
      {
        RewriteKeepsResolved(o.properties[j].value, path, ops, components);
      }
      assert Collect(rs).value == o.properties;
    case OneOfModel(o) =>
      var rs := seq(|o.items|, j requires 0 <= j < |o.items| => RewriteModel(o.items[j], path, ops, components));
      forall j | 0 <= j < |o.items|
        ensures rs[j] == Ok(o.items[j])
      {
        RewriteKeepsResolved(o.items[j], path, ops, components);
      }
      assert Collect(rs).value == o.items;
    case AllOfModel(o) =>
      var rs := seq(|o.items|, j requires 0 <= j < |o.items| => RewriteModel(o.items[j], path, ops, components));
      forall j | 0 <= j < |o.items|
        ensures rs[j] == Ok(o.items[j])
      {
        RewriteKeepsResolved(o.items[j], path, ops, components);
      }
      assert Collect(rs).value == o.items;
    case _ =>
  }

  /** Rewriting twice is rewriting once. */
  lemma RewriteIdempotent(n: DataModelNode, path: string, ops: PathOps, components: ComponentFiles)
    requires RewriteModel(n, path, ops, components).Ok?
    ensures var once := RewriteModel(n, path, ops, components).value;
      RewriteModel(once, path, ops, components) == Ok(once)
  {
    RewriteRemovesFileRefs(n, path, ops, components);
    RewriteKeepsResolved(RewriteModel(n, path, ops, components).value, path, ops, components);
  }

  /** A file reference whose parent directory and canonical target exist
      becomes the component named by the target's title. */
  lemma FileRefResolved(filePath: string, path: string, ops: PathOps, components: ComponentFiles, dir: string, target: string)
    requires ops.parent(path) == Some(dir) && ops.canonicalize(dir, filePath) == Some(target)
    ensures RewriteModel(RefModel(FileRef(filePath)), path, ops, components) ==
      Ok(RefModel(ComponentRef(if target in components && components[target].Title().Some? then components[target].Title().value else ANONYMOUS_COMPONENT_REF)))
  {
  }

  /** A reference that cannot be resolved on the file system panics. */
  lemma FileRefUnresolved(filePath: string, path: string, ops: PathOps, components: ComponentFiles)
    requires ops.parent(path).None? || ops.canonicalize(ops.parent(path).value, filePath).None?
    ensures RewriteModel(RefModel(FileRef(filePath)), path, ops, components).Panic?
  {
  }

  /** Only operations and data models are touched. */
  lemma OtherNodesUntouched(node: OpenApiNode, path: string, ops: PathOps, components: ComponentFiles)
    requires !node.Operation? && !node.DataModel?
    ensures RewriteNode(node, path, ops, components) == Ok(node)
  {
  }

  /** An operation without any schema is left as it is. */
  lemma OperationWithoutSchemas(op: OperationNode, path: string, ops: PathOps, components: ComponentFiles)
    requires op.parameters == [] && op.requestBody.None?
    requires forall j :: 0 <= j < |op.responses| ==> op.responses[j].schema.None?
    ensures RewriteOperation(op, path, ops, components) == Ok(op)
  {
    var rs := seq(|op.responses|, j requires 0 <= j < |op.responses| => RewriteResponse(op.responses[j], path, ops, components));
    assert forall j :: 0 <= j < |op.responses| ==> rs[j] == Ok(op.responses[j]);
    assert Collect(rs).value == op.responses;
  }

  /** Each rewritten parameter keeps everything but its schema, which is
      the rewritten schema. */
  lemma ParametersRewritten(op: OperationNode, path: string, ops: PathOps, components: ComponentFiles)
    requires RewriteOperation(op, path, ops, components).Ok?
    ensures var op' := RewriteOperation(op, path, ops, components).value;
      |op'.parameters| == |op.parameters| &&
      forall j :: 0 <= j < |op.parameters| ==>
        RewriteModel(op.parameters[j].schema, path, ops, components) == Ok(op'.parameters[j].schema) &&
        op'.parameters[j] == op.parameters[j].(schema := op'.parameters[j].schema)
  {
    var rs := seq(|op.parameters|, j requires 0 <= j < |op.parameters| => RewriteParameter(op.parameters[j], path, ops, components));
    var op' := RewriteOperation(op, path, ops, components).value;
    assert Collect(rs).Ok?;
    assert forall j :: 0 <= j < |op.parameters| ==> rs[j] == Ok(op'.parameters[j]);
  }

  /** A file is rewritten to a file with the same path and as many nodes,
      each the rewrite of the original node. */
  lemma FileRewritten(f: FileNode, ops: PathOps, components: ComponentFiles)
    requires RewriteFile(f, ops, components).Ok?
    ensures var f' := RewriteFile(f, ops, components).value;
      f'.path == f.path && |f'.contents| == |f.contents| &&
      forall j :: 0 <= j < |f.contents| ==> RewriteNode(f.contents[j], f.path, ops, components) == Ok(f'.contents[j])
  {
    var rs := NodeOutcomes(f.contents, f.path, ops, components);
    assert forall j :: 0 <= j < |f.contents| ==> rs[j] == RewriteNode(f.contents[j], f.path, ops, components);
  }

  /** An operation none of whose parameter, request-body or response
      schemas holds a file reference. */
  predicate OperationNoFileRef(op: OperationNode) {
    && (forall j :: 0 <= j < |op.parameters| ==> NoFileRef(op.parameters[j].schema))
    && (op.requestBody.Some? ==> NoFileRef(op.requestBody.value.schema))
    && (forall j :: 0 <= j < |op.responses| ==> op.responses[j].schema.Some? ==> NoFileRef(op.responses[j].schema.value))
  }

  /** A node that the rewrite pass visits, free of file references; the
      pass does not visit other nodes. */
  predicate NodeNoFileRef(n: OpenApiNode) {
    match n
    case Operation(op) => OperationNoFileRef(op)
    case DataModel(m) => NoFileRef(m)
    case _ => true
  }

  /** Every schema of a successfully rewritten operation is free of file
      references. */
  lemma OperationRewriteRemovesFileRefs(op: OperationNode, path: string, ops: PathOps, components: ComponentFiles)
    requires RewriteOperation(op, path, ops, components).Ok?
    ensures OperationNoFileRef(RewriteOperation(op, path, ops, components).value)
  {
    var op' := RewriteOperation(op, path, ops, components).value;
    ParametersRewritten(op, path, ops, components);
    forall j | 0 <= j < |op'.parameters|
      ensures NoFileRef(op'.parameters[j].schema)
    {
      RewriteRemovesFileRefs(op.parameters[j].schema, path, ops, components);
    }
    if op.requestBody.Some? {
      RewriteRemovesFileRefs(op.requestBody.value.schema, path, ops, components);
    }
    forall j | 0 <= j < |op'.responses| && op'.responses[j].schema.Some?
      ensures NoFileRef(op'.responses[j].schema.value)
    {
      RewriteRemovesFileRefs(op.responses[j].schema.value, path, ops, components);
    }
  }

  /** After a successful pass over the corpus, every file keeps its path
      and node count, and no operation or data model in any file holds a
      file reference. */
  lemma RewriteRemovesAllFileRefs(files: seq<FileNode>, ops: PathOps, components: ComponentFiles)
    requires Rewrite(files, ops, components).Ok?
    ensures var out := Rewrite(files, ops, components).value;
      && |out| == |files|
      && forall i :: 0 <= i < |files| ==>
        && out[i].path == files[i].path
        && |out[i].contents| == |files[i].contents|
        && forall j :: 0 <= j < |out[i].contents| ==> NodeNoFileRef(out[i].contents[j])
  {
    var out := Rewrite(files, ops, components).value;
    var rs := FileOutcomes(files, ops, components);
    forall i | 0 <= i < |files|
      ensures out[i].path == files[i].path && |out[i].contents| == |files[i].contents|
      ensures forall j :: 0 <= j < |out[i].contents| ==> NodeNoFileRef(out[i].contents[j])
    {
      assert rs[i] == Ok(out[i]);
      FileRewritten(files[i], ops, components);
      forall j | 0 <= j < |out[i].contents|
        ensures NodeNoFileRef(out[i].contents[j])
      {
        var n := files[i].contents[j];
        assert RewriteNode(n, files[i].path, ops, components) == Ok(out[i].contents[j]);
        match n
        case Operation(op) =>
          OperationRewriteRemovesFileRefs(op, files[i].path, ops, components);
        case DataModel(m) =>
          RewriteRemovesFileRefs(m, files[i].path, ops, components);
        case _ =>
      }
    }
  }

  /** The first file whose rewrite panics decides the outcome of the pass. */
  lemma FirstPanickingFile(files: seq<FileNode>, ops: PathOps, components: ComponentFiles, k: nat)
    requires k < |files| && !RewriteFile(files[k], ops, components).Ok?
    requires forall j :: 0 <= j < k ==> RewriteFile(files[j], ops, components).Ok?
    ensures Rewrite(files, ops, components) == RewriteFile(files[k], ops, components).PropagateFailure()
  {
    var rs := FileOutcomes(files, ops, components);
    assert forall j :: 0 <= j < k ==> rs[j] == RewriteFile(files[j], ops, components);
    assert Collect(rs[..k]).Ok?;
    CollectPrefixFailure(rs, k);
  }
}
