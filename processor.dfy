/** `Processor`: the later name of the transformer, built on the
    `evaluator` field of its base class. */
module Processors {
  import opened Tokens
  import opened Evaluators
  import Transformers

  /** `evaluator` comes from the base class, `replace` from the subclass;
      the constructor stores both unchanged. */
  datatype Processor = Processor(evaluator: Evaluator, replace: string)

  /** `processor.process(tok)`. */
  function Process(p: Processor, tok: Token): (r: Outcome)
    ensures r == Replaced(p.replace) || r == Keep(tok)
    ensures r.Replaced? <==> Evaluate(p.evaluator, tok)
  {
    if Evaluate(p.evaluator, tok) then Replaced(p.replace) else Keep(tok)
  }

  /** A processor and a transformer built from the same evaluator and
      replacement treat every token alike. */
  lemma ProcessAgreesWithTransform(e: Evaluator, replace: string, tok: Token)
    ensures Process(Processor(e, replace), tok)
         == Transformers.Transform(Transformers.Transformer(e, replace), tok)
  {
  }
}
