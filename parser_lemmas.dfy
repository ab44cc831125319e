/** Properties of the extraction loop. */
module ParserLemmas {
  import opened Wrappers
  import opened YamlModel
  import opened SchemaBuilder
  import opened OpenApiFile
  import opened Parser
  import opened SchemaLemmas

  /** While every extractor declines, the fold's state is "no nodes yet"
      and the mapping the next extractor is offered. */
  lemma {:induction false} FoldAfterDeclines(run: Extractors, hash: Mapping, path: string, i: nat)
    requires i <= |EXTRACTORS| && DeclinedBefore(run, hash, path, i)
    ensures ParseContent(run, hash, path) == FoldFrom(run, i, (None, OfferedTo(run, hash, path, i)), path)
    decreases i
  {
    if i > 0 {
      FoldAfterDeclines(run, hash, path, i - 1);
      var offered := OfferedTo(run, hash, path, i - 1);
      assert run(EXTRACTORS[i - 1], offered, path) == (None, OfferedTo(run, hash, path, i));
    }
  }

  /** The first extractor, in the order metadata, info, servers, tags,
      paths, operation, data model, data models, parameters, example,
      unknown, that returns nodes decides the round: its nodes and its
      mapping are the round's result. */
  lemma FirstSomeWins(run: Extractors, hash: Mapping, path: string, k: nat)
    requires k < |EXTRACTORS| && DeclinedBefore(run, hash, path, k)
    requires run(EXTRACTORS[k], OfferedTo(run, hash, path, k), path).0.Some?
    ensures ParseContent(run, hash, path) == run(EXTRACTORS[k], OfferedTo(run, hash, path, k), path)
  {
    FoldAfterDeclines(run, hash, path, k);
  }

  /** When every extractor declines, the round has no nodes and returns the
      mapping the last extractor left. */
  lemma AllDecline(run: Extractors, hash: Mapping, path: string)
    requires DeclinedBefore(run, hash, path, |EXTRACTORS|)
    ensures ParseContent(run, hash, path) == (None, OfferedTo(run, hash, path, |EXTRACTORS|))
  {
    FoldAfterDeclines(run, hash, path, |EXTRACTORS|);
  }

  /** Two sets of extractors that agree up to `k` offer the same mappings
      up to `k`. */
  lemma {:induction false} SameOffers(run: Extractors, other: Extractors, hash: Mapping, path: string, k: nat)
    requires k < |EXTRACTORS|
    requires forall j, h :: 0 <= j <= k ==> other(EXTRACTORS[j], h, path) == run(EXTRACTORS[j], h, path)
    ensures forall j :: 0 <= j <= k ==> OfferedTo(other, hash, path, j) == OfferedTo(run, hash, path, j)
    decreases k
  {
    if k > 0 {
      SameOffers(run, other, hash, path, k - 1);
    }
  }

  /** Extractors after the winning one are not consulted: replacing them
      changes nothing. */
  lemma LaterExtractorsNotCalled(run: Extractors, other: Extractors, hash: Mapping, path: string, k: nat)
    requires k < |EXTRACTORS| && DeclinedBefore(run, hash, path, k)
    requires run(EXTRACTORS[k], OfferedTo(run, hash, path, k), path).0.Some?
    requires forall j, h :: 0 <= j <= k ==> other(EXTRACTORS[j], h, path) == run(EXTRACTORS[j], h, path)
    ensures ParseContent(other, hash, path) == ParseContent(run, hash, path)
  {
    SameOffers(run, other, hash, path, k);
    assert DeclinedBefore(other, hash, path, k);
    FirstSomeWins(run, hash, path, k);
    FirstSomeWins(other, hash, path, k);
  }

  /** A round that leaves the mapping as large as it was panics. */
  lemma RoundWithoutProgressPanics(run: Extractors, hash: Mapping, path: string)
    requires NonGrowing(run) && |hash| > 0
    requires |ParseContent(run, hash, path).1| == |hash|
    ensures YamlContent(run, hash, path) == Panic(INFINITE_LOOP)
  {
  }

  /** A round that makes progress contributes its nodes, in their order,
      before the nodes of all later rounds. */
  lemma RoundNodesComeFirst(run: Extractors, hash: Mapping, path: string)
    requires NonGrowing(run) && |hash| > 0
    requires |ParseContent(run, hash, path).1| < |hash|
    requires YamlContent(run, hash, path).Ok?
    ensures var round := ParseContent(run, hash, path);
      YamlContent(run, round.1, path).Ok? &&
      YamlContent(run, hash, path).value == round.0.GetOr([]) + YamlContent(run, round.1, path).value
  {
  }

  /** A file must hold exactly one document, and that document must be a
      mapping. */
  lemma FileMustHoldOneMapping(run: Extractors, file: YamlFile)
    requires NonGrowing(run)
    ensures |file.content| != 1 ==> ParseYamlFile(run, file) == Panic(ONE_DOCUMENT_PANIC)
    ensures |file.content| == 1 && !file.content[0].Hash? ==> ParseYamlFile(run, file) == Panic("invalid yaml file")
  {
  }

  /** A parsed file keeps its path and holds the nodes of its mapping. */
  lemma FileKeepsPath(run: Extractors, file: YamlFile)
    requires NonGrowing(run) && ParseYamlFile(run, file).Ok?
    ensures |file.content| == 1 && file.content[0].Hash?
    ensures ParseYamlFile(run, file).value.path == file.path
    ensures YamlContent(run, file.content[0].entries, file.path) == Ok(ParseYamlFile(run, file).value.contents)
  {
  }

  /** One file node per input file, in the same order and with the same
      path. */
  lemma FilesInOrder(run: Extractors, files: seq<YamlFile>)
    requires NonGrowing(run) && ParseYamlFiles(run, files).Ok?
    ensures |ParseYamlFiles(run, files).value| == |files|
    ensures forall i :: 0 <= i < |files| ==>
      ParseYamlFile(run, files[i]) == Ok(ParseYamlFiles(run, files).value[i]) &&
      ParseYamlFiles(run, files).value[i].path == files[i].path
  {
    var rs := seq(|files|, i requires 0 <= i < |files| => ParseYamlFile(run, files[i]));
    forall i | 0 <= i < |files|
      ensures ParseYamlFiles(run, files).value[i].path == files[i].path
    {
      assert rs[i] == ParseYamlFile(run, files[i]);
      FileKeepsPath(run, files[i]);
    }
  }

  /** The first file that panics decides the outcome of the whole batch. */
  lemma FirstFailingFile(run: Extractors, files: seq<YamlFile>, k: int)
    requires NonGrowing(run) && 0 <= k < |files|
    requires !ParseYamlFile(run, files[k]).Ok?
    requires forall j :: 0 <= j < k ==> ParseYamlFile(run, files[j]).Ok?
    ensures ParseYamlFiles(run, files) == ParseYamlFile(run, files[k]).PropagateFailure()
  {
    var rs := seq(|files|, i requires 0 <= i < |files| => ParseYamlFile(run, files[i]));
    assert FirstFailure(rs, k);
    CollectStopsAtFirstFailure(rs, k);
  }
}
