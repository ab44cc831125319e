/** `src/compiler/parse_postprocess.rs`: the older snapshot of the passes,
    over a corpus keyed by file path. Its merge of shared parameters is the
    same code as the newer one and reuses its definitions; its example
    removal differs: a file is dropped when ALL of its nodes are examples,
    which includes a file with no nodes, while a file that mixes examples
    with other nodes is kept. */
module PostProcessOlder {
  import opened OpenApiFile
  import opened PostProcess

  /** Every node of the file is an example (vacuously so for no nodes). */
  predicate OnlyExamples(f: FileNode) {
    forall i :: 0 <= i < |f.contents| ==> f.contents[i].Example?
  }

  /** The corpus after the older `remove_examples`. */
  function WithoutExampleFiles(files: map<string, FileNode>): (r: map<string, FileNode>)
    ensures forall p :: p in r <==> p in files && !OnlyExamples(files[p])
    ensures forall p :: p in r ==> r[p] == files[p]
  {
    map p | p in files && !OnlyExamples(files[p]) :: files[p]
  }

  /** The corpus after the older `merge_parameter_nodes`: every file merged
      on its own. */
  function MergedFiles(files: map<string, FileNode>): (r: map<string, FileNode>)
    ensures r.Keys == files.Keys
    ensures forall p :: p in r ==> r[p] == MergedFile(files[p])
  {
    map p | p in files :: MergedFile(files[p])
  }

  /** The parsed corpus keyed by file path (`OpenAPIFileNodeMap`). */
  class OlderCorpus {
    var files: map<string, FileNode>

    constructor (files: map<string, FileNode>)
      ensures this.files == files
    {
      this.files := files;
    }

    /** `remove_examples`: visit every path once, in any order, and remove
        the file when it holds only examples. */
    method RemoveExamples()
      modifies this
      ensures files == WithoutExampleFiles(old(files))
    {
      var paths := files.Keys;
      while paths != {}
        invariant paths <= old(files).Keys
        invariant forall p :: p in files <==> p in old(files) && (p in paths || !OnlyExamples(old(files)[p]))
        invariant forall p :: p in files ==> files[p] == old(files)[p]
        decreases |paths|
      {
        var path :| path in paths;
        if OnlyExamples(files[path]) {
          files := files - {path};
        }
        paths := paths - {path};
      }
    }

    /** `merge_parameter_nodes`: each file on its own, through the same
        list, insert and delete steps as the newer pass. */
    method MergeParameterNodes()
      modifies this
      ensures files == MergedFiles(old(files))
    {
      var paths := files.Keys;
      while paths != {}
        invariant paths <= files.Keys && files.Keys == old(files).Keys
        invariant forall p :: p in files && p !in paths ==> files[p] == MergedFile(old(files)[p])
        invariant forall p :: p in paths ==> files[p] == old(files)[p]
        decreases |paths|
      {
        var path :| path in paths;
        var f := files[path];
        var parameters := ListParameters(f.contents);
        var inserted := InsertParametersToOperationNodes(f.contents, parameters);
        var remaining := DeleteParametersNodes(inserted);
        files := files[path := f.(contents := remaining)];
        paths := paths - {path};
      }
    }
  }

  /** The two snapshots disagree on an empty file: the older pass drops it,
      the newer keeps it. */
  lemma EmptyFileFate(path: string, f: FileNode)
    requires f.contents == []
    ensures path !in WithoutExampleFiles(map[path := f])
    ensures WithoutExamples([f]) == [f]
  {
    assert [f][..0] == [];
  }

  /** They also disagree on a file that mixes an example with another node:
      the older pass keeps it, the newer drops it. */
  lemma MixedFileFate(path: string, f: FileNode, i: nat, j: nat)
    requires i < |f.contents| && j < |f.contents|
    requires f.contents[i].Example? && !f.contents[j].Example?
    ensures path in WithoutExampleFiles(map[path := f])
    ensures WithoutExamples([f]) == []
  {
    assert [f][..0] == [];
  }

  /** A file of one or more examples and nothing else is dropped by both. */
  lemma ExampleFileFate(path: string, f: FileNode)
    requires f.contents != [] && OnlyExamples(f)
    ensures path !in WithoutExampleFiles(map[path := f])
    ensures WithoutExamples([f]) == []
  {
    assert [f][..0] == [];
    assert HasExample(f) by {
      assert f.contents[0].Example?;
    }
  }
}
