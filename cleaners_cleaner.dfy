/** `Cleaner` of the `cleaners` package: the toggle-based cleaner as first
    written, whose POS filter does not look at the list's contents. */
module CleanersCleaner {
  import opened Text
  import opened Tokens
  import opened Exceptions
  import opened TokenFilter

  /** A constructed cleaner. The extra keyword arguments it stores are never
      read, so they are not part of the model. */
  datatype Cleaner = Cleaner(toggles: Toggles)

  /** `Cleaner(model, ...)`, given the names of the model's pipeline components. */
  function NewCleaner(pipeNames: seq<string>, toggles: Toggles): (b: Built<Cleaner>)
    ensures b.warned <==> toggles.removePos.Some? && "tagger" !in pipeNames
    ensures b.result.Err? <==> toggles.lemmatize && "lemmatizer" !in pipeNames
    ensures b.result.Err? ==> b.result.error.SpacyCleanerMisconfigurationError?
    ensures b.result.Ok? ==> b.result.value.toggles == toggles
  {
    var warned := toggles.removePos.Some? && "tagger" !in pipeNames;
    if toggles.lemmatize && "lemmatizer" !in pipeNames then
      Built(warned, Err(SpacyCleanerMisconfigurationError("A `lemmatizer` is not in your model pipeline.")))
    else
      Built(warned, Ok(Cleaner(toggles)))
  }

  /** `_allowed_token(tok)` as written: once any POS list is given, even an
      empty one, every token that carries a POS tag is rejected, whatever the
      list holds; then the flag filters and the blank test as in the later cleaner. */
  function AllowedToken(c: Cleaner, tok: Token): (allowed: bool)
    ensures c.toggles.removePos.Some? && tok.pos_ != "" ==> !allowed
    ensures c.toggles.removeStopwords && tok.isStop ==> !allowed
    ensures c.toggles.removePunctuation && tok.isPunct ==> !allowed
    ensures c.toggles.removeNumbers && tok.likeNum ==> !allowed
    ensures c.toggles.removeEmail && tok.likeEmail ==> !allowed
    ensures c.toggles.removeUrl && tok.likeUrl ==> !allowed
    ensures AllWhitespace(tok.text) ==> !allowed
    ensures !allowed ==>
      || (c.toggles.removePos.Some? && tok.pos_ != "")
      || (c.toggles.removeStopwords && tok.isStop)
      || (c.toggles.removePunctuation && tok.isPunct)
      || (c.toggles.removeNumbers && tok.likeNum)
      || (c.toggles.removeEmail && tok.likeEmail)
      || (c.toggles.removeUrl && tok.likeUrl)
      || AllWhitespace(tok.text)
  {
    var t := c.toggles;
    if t.removePos.Some? && tok.pos_ != "" then false
    else if t.removeStopwords && tok.isStop then false
    else if t.removePunctuation && tok.isPunct then false
    else if t.removeNumbers && tok.likeNum then false
    else if t.removeEmail && tok.likeEmail then false
    else if t.removeUrl && tok.likeUrl then false
    else if IsBlank(tok.text) then false
    else true
  }

  /** The cleaner's filter as a predicate value. */
  function Allowed(c: Cleaner): Token -> bool
  {
    tok => AllowedToken(c, tok)
  }

  /** What `_clean_doc` returns for `doc`. */
  function CleanedDoc(c: Cleaner, doc: Doc): string
  {
    Cleaned(Allowed(c), c.toggles.lemmatize, doc)
  }

  /** `_clean_doc(doc)`. */
  method CleanDoc(c: Cleaner, doc: Doc) returns (s: string)
    ensures s == CleanedDoc(c, doc)
    ensures forall i :: 0 <= i < |s| ==> !IsUpperAscii(s[i])
  {
    s := CleanTokens(Allowed(c), c.toggles.lemmatize, doc);
  }

  /** `cleaner.clean(texts)`, given the documents `model.pipe(texts)` yields. */
  function Clean(c: Cleaner, docs: seq<Doc>): (r: seq<string>)
    ensures |r| == |docs|
    ensures forall i :: 0 <= i < |docs| ==> r[i] == CleanedDoc(c, docs[i])
  {
    seq(|docs|, i requires 0 <= i < |docs| => CleanedDoc(c, docs[i]))
  }
}
