/** Evaluators: boolean predicates over one token. */
module Evaluators {
  import opened Tokens

  /** The four built-in evaluators, and any other object that offers an
      `evaluate` method (the `Evaluator` protocol), given by its predicate. */
  datatype Evaluator =
    | StopwordsEvaluator
    | PunctuationEvaluator
    | EmailEvaluator
    | URLEvaluator
    | CustomEvaluator(test: Token -> bool)

  /** `evaluator.evaluate(tok)`: each built-in evaluator reads exactly one
      flag of the token and nothing else. */
  function Evaluate(e: Evaluator, tok: Token): (b: bool)
    ensures e.StopwordsEvaluator? ==> (b <==> tok.isStop)
    ensures e.PunctuationEvaluator? ==> (b <==> tok.isPunct)
    ensures e.EmailEvaluator? ==> (b <==> tok.likeEmail)
    ensures e.URLEvaluator? ==> (b <==> tok.likeUrl)
    ensures e.CustomEvaluator? ==> (b <==> e.test(tok))
  {
    match e
    case StopwordsEvaluator => tok.isStop
    case PunctuationEvaluator => tok.isPunct
    case EmailEvaluator => tok.likeEmail
    case URLEvaluator => tok.likeUrl
    case CustomEvaluator(test) => test(tok)
  }

  /** A built-in evaluator gives the same answer on two tokens that agree on
      its flag, whatever their text, lemma, tag and other flags. */
  lemma BuiltinReadsOneFlag(e: Evaluator, t1: Token, t2: Token)
    requires !e.CustomEvaluator?
    requires e.StopwordsEvaluator? ==> t1.isStop == t2.isStop
    requires e.PunctuationEvaluator? ==> t1.isPunct == t2.isPunct
    requires e.EmailEvaluator? ==> t1.likeEmail == t2.likeEmail
    requires e.URLEvaluator? ==> t1.likeUrl == t2.likeUrl
    ensures Evaluate(e, t1) == Evaluate(e, t2)
  {
  }
}
