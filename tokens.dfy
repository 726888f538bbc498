/** The annotated token that the external NLP annotator (spaCy) delivers,
    and the two-way outcome of a token rule. Tokenisation, lemmatisation,
    part-of-speech tagging and the stopword / punctuation / number / email /
    URL detectors all belong to the annotator; here they are plain fields. */
module Tokens {

  /** One annotated token: `text` is `tok.text` (also what `str(tok)` gives),
      `lemma_` is `tok.lemma_`, `pos_` is `tok.pos_` ("" when no tagger ran). */
  datatype Token = Token(
    text: string,
    lemma_: string,
    pos_: string,
    isStop: bool,
    isPunct: bool,
    likeNum: bool,
    likeEmail: bool,
    likeUrl: bool)

  /** A parsed document: its tokens in order. */
  type Doc = seq<Token>

  /** What a token processor returns: `Union[str, Token]`. A string ends the
      token's processing; a token is handed on to the next processor. */
  datatype Outcome = Replaced(s: string) | Keep(tok: Token)

  /** A token processor: any callable from a token to an outcome. */
  type Rule = Token -> Outcome

  /** `str(outcome)`: the string itself, or the token's text. */
  function Str(o: Outcome): string
  {
    match o
    case Replaced(s) => s
    case Keep(t) => t.text
  }
}
