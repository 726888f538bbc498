/** `Pipeline` of the `cleaning` package: the same rule-chain cleaner
    under a later name, with the model kept by its base class. */
module CleaningPipeline {
  import opened Text
  import opened Tokens
  import opened Helpers
  import Cleaners

  /** The processors as passed to the constructor, in order. */
  datatype Pipeline = Pipeline(processors: seq<Rule>)

  /** `pipeline.clean(texts)`, given the documents `model.pipe(texts)`
      yields: index-aligned results, each `clean_doc` of its document. */
  function Clean(p: Pipeline, docs: seq<Doc>): (r: seq<string>)
    ensures |r| == |docs|
    ensures forall i :: 0 <= i < |docs| ==> r[i] == CleanDoc(docs[i], p.processors)
  {
    seq(|docs|, i requires 0 <= i < |docs| => CleanDoc(docs[i], p.processors))
  }

  /** `Pipeline` and the earlier `Cleaner` agree on every batch. */
  lemma AgreesWithCleaner(processors: seq<Rule>, docs: seq<Doc>)
    ensures Clean(Pipeline(processors), docs) == Cleaners.Clean(Cleaners.Cleaner(processors), docs)
  {
  }

  /** With no processors each result is the normalised join of the
      document's token texts. */
  lemma CleanWithoutProcessors(docs: seq<Doc>, i: nat)
    requires i < |docs|
    ensures Clean(Pipeline([]), docs)[i]
         == ReplaceMultiWhitespace(Join(SingleSpace, seq(|docs[i]|, k requires 0 <= k < |docs[i]| => docs[i][k].text)), SingleSpace)
  {
    CleanDocNoProcessors(docs[i]);
  }
}
