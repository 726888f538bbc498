/** Rules that rewrite a token unconditionally. */
module Mutators {
  import opened Tokens
  import opened Helpers

  /** `mutate_lemma_token(tok)`: returns the lemma, a string, so it always
      ends the token's processing. */
  function MutateLemmaToken(tok: Token): Outcome
  {
    Replaced(tok.lemma_)
  }

  /** `mutate_lemma_token` always ends the chain: once every earlier rule has
      handed the token on, the result is its lemma, whatever follows. */
  lemma LemmaEndsChain(tok: Token, earlier: seq<Rule>, later: seq<Rule>)
    requires forall i :: 0 <= i < |earlier| ==> earlier[i](tok) == Keep(tok)
    ensures Pipe(tok, earlier + [MutateLemmaToken] + later) == tok.lemma_
  {
    var rules := earlier + [MutateLemmaToken] + later;
    assert rules[|earlier|] == MutateLemmaToken;
    assert forall i :: 0 <= i < |earlier| ==> rules[i] == earlier[i];
    PipeFirstFiring(tok, rules, |earlier|);
  }
}
