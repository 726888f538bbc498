/** Rules that replace a matching token with a placeholder string. */
module Replacers {
  import opened Tokens
  import opened Evaluators
  import opened Processors

  /** The default placeholders. */
  const IsPunctPlaceholder: string := "_IS_PUNCT_"
  const IsStopPlaceholder: string := "_IS_STOP_"
  const LikeEmailPlaceholder: string := "_LIKE_EMAIL_"

  /** `replace_punctuation_token(tok, replace)`. */
  function ReplacePunctuationToken(tok: Token, replace: string): (r: Outcome)
    ensures tok.isPunct ==> r == Replaced(replace)
    ensures !tok.isPunct ==> r == Keep(tok)
  {
    Process(Processor(PunctuationEvaluator, replace), tok)
  }

  /** `replace_stopword_token(tok, replace)`. */
  function ReplaceStopwordToken(tok: Token, replace: string): (r: Outcome)
    ensures tok.isStop ==> r == Replaced(replace)
    ensures !tok.isStop ==> r == Keep(tok)
  {
    Process(Processor(StopwordsEvaluator, replace), tok)
  }

  /** `replace_like_email_token(tok, replace)`. */
  function ReplaceLikeEmailToken(tok: Token, replace: string): (r: Outcome)
    ensures tok.likeEmail ==> r == Replaced(replace)
    ensures !tok.likeEmail ==> r == Keep(tok)
  {
    Process(Processor(EmailEvaluator, replace), tok)
  }

  /** `replace_punctuation_token` with its default placeholder, as a chain
      element: punctuation becomes "_IS_PUNCT_", every other token passes. */
  function ReplacePunctuation(): (r: Rule)
    ensures forall tok: Token :: tok.isPunct ==> r(tok) == Replaced(IsPunctPlaceholder)
    ensures forall tok: Token :: !tok.isPunct ==> r(tok) == Keep(tok)
  {
    tok => ReplacePunctuationToken(tok, IsPunctPlaceholder)
  }

  /** `replace_stopword_token` with its default placeholder: a stopword
      becomes "_IS_STOP_", every other token passes. */
  function ReplaceStopword(): (r: Rule)
    ensures forall tok: Token :: tok.isStop ==> r(tok) == Replaced(IsStopPlaceholder)
    ensures forall tok: Token :: !tok.isStop ==> r(tok) == Keep(tok)
  {
    tok => ReplaceStopwordToken(tok, IsStopPlaceholder)
  }

  /** `replace_like_email_token` with its default placeholder: an email-like
      token becomes "_LIKE_EMAIL_", every other token passes. */
  function ReplaceLikeEmail(): (r: Rule)
    ensures forall tok: Token :: tok.likeEmail ==> r(tok) == Replaced(LikeEmailPlaceholder)
    ensures forall tok: Token :: !tok.likeEmail ==> r(tok) == Keep(tok)
  {
    tok => ReplaceLikeEmailToken(tok, LikeEmailPlaceholder)
  }

  /** The default placeholders tell the three kinds of token apart. */
  lemma PlaceholdersDistinct()
    ensures IsPunctPlaceholder != IsStopPlaceholder
    ensures IsPunctPlaceholder != LikeEmailPlaceholder
    ensures IsStopPlaceholder != LikeEmailPlaceholder
  {
    assert IsPunctPlaceholder[4] != IsStopPlaceholder[4];
    assert IsPunctPlaceholder[1] != LikeEmailPlaceholder[1];
    assert IsStopPlaceholder[1] != LikeEmailPlaceholder[1];
  }
}
