/** `Transformer`: an evaluator paired with a replacement string. */
module Transformers {
  import opened Tokens
  import opened Evaluators

  /** Both fields are set by the constructor and never reassigned. */
  datatype Transformer = Transformer(evaluator: Evaluator, replace: string)

  /** `transformer.transform(tok)`: the replacement when the evaluator
      accepts the token, the very same token otherwise. */
  function Transform(t: Transformer, tok: Token): (r: Outcome)
    ensures r == Replaced(t.replace) || r == Keep(tok)
    ensures r.Replaced? <==> Evaluate(t.evaluator, tok)
  {
    if Evaluate(t.evaluator, tok) then Replaced(t.replace) else Keep(tok)
  }
}
