/** Rules that remove a matching token, i.e. replace it with "". */
module Removers {
  import opened Tokens
  import opened Evaluators
  import opened Processors

  /** `remove_stopword_token(tok)`: a stopword becomes the empty string,
      any other token passes through untouched; it never yields text. */
  function RemoveStopwordToken(tok: Token): (r: Outcome)
    ensures tok.isStop ==> r == Replaced("")
    ensures !tok.isStop ==> r == Keep(tok)
    ensures r.Replaced? ==> r.s == ""
  {
    Process(Processor(StopwordsEvaluator, ""), tok)
  }
}
