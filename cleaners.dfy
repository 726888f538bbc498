/** `Cleaner` of the rule-chain generation: a model handle and a fixed
    chain of token processors. */
module Cleaners {
  import opened Text
  import opened Tokens
  import opened Helpers

  /** The processors exactly as passed to the constructor, in order; the
      tuple is never changed afterwards. */
  datatype Cleaner = Cleaner(processors: seq<Rule>)

  /** `cleaner.clean(texts)`, given the documents `model.pipe(texts)`
      yields: one cleaned string per document, in the same order. No case
      folding happens; every result is in whitespace normal form. */
  function Clean(c: Cleaner, docs: seq<Doc>): (r: seq<string>)
    ensures |r| == |docs|
    ensures forall i :: 0 <= i < |docs| ==> r[i] == CleanDoc(docs[i], c.processors)
    ensures forall i :: 0 <= i < |docs| ==> Trimmed(r[i]) && NoDoubleWhitespace(r[i])
  {
    seq(|docs|, i requires 0 <= i < |docs| => CleanDoc(docs[i], c.processors))
  }

  /** Cleaning a batch is cleaning each part: concatenating the document
      streams concatenates the results. */
  lemma CleanAppend(c: Cleaner, a: seq<Doc>, b: seq<Doc>)
    ensures Clean(c, a + b) == Clean(c, a) + Clean(c, b)
  {
  }
}
