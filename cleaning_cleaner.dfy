/** `Cleaner` of the `cleaning` package: fixed toggles instead of a rule
    chain, a POS filter on `tok.pos_`, and lowercased output. */
module CleaningCleaner {
  import opened Text
  import opened Tokens
  import opened Exceptions
  import opened TokenFilter

  /** A constructed cleaner; its options never change afterwards. */
  datatype Cleaner = Cleaner(toggles: Toggles)

  /** `Cleaner(model, ...)`, given the names of the model's pipeline
      components: warns when a POS list is given without a `tagger`, and
      fails when lemmatising is asked for without a `lemmatizer`. */
  function NewCleaner(pipeNames: seq<string>, toggles: Toggles): (b: Built<Cleaner>)
    ensures b.warned <==> toggles.removePos.Some? && "tagger" !in pipeNames
    ensures b.result.Err? <==> toggles.lemmatize && "lemmatizer" !in pipeNames
    ensures b.result.Err? ==> b.result.error.SpacyCleanerMisconfigurationError?
    ensures b.result.Ok? ==> b.result.value.toggles == toggles
  {
    var warned := toggles.removePos.Some? && "tagger" !in pipeNames;
    if toggles.lemmatize && "lemmatizer" !in pipeNames then
      Built(warned, Err(SpacyCleanerMisconfigurationError("A `lemmatizer` is not in your model pipeline.")))
    else
      Built(warned, Ok(Cleaner(toggles)))
  }

  /** `_allowed_token(tok)`: rejected when its POS tag is in the POS list, when
      an enabled filter matches its flag, or when its text is blank; allowed
      in every other case. */
  function AllowedToken(c: Cleaner, tok: Token): (allowed: bool)
    ensures c.toggles.removePos.Some? && tok.pos_ in c.toggles.removePos.value ==> !allowed
    ensures c.toggles.removeStopwords && tok.isStop ==> !allowed
    ensures c.toggles.removePunctuation && tok.isPunct ==> !allowed
    ensures c.toggles.removeNumbers && tok.likeNum ==> !allowed
    ensures c.toggles.removeEmail && tok.likeEmail ==> !allowed
    ensures c.toggles.removeUrl && tok.likeUrl ==> !allowed
    ensures AllWhitespace(tok.text) ==> !allowed
    ensures !allowed ==>
      || (c.toggles.removePos.Some? && tok.pos_ in c.toggles.removePos.value)
      || (c.toggles.removeStopwords && tok.isStop)
      || (c.toggles.removePunctuation && tok.isPunct)
      || (c.toggles.removeNumbers && tok.likeNum)
      || (c.toggles.removeEmail && tok.likeEmail)
      || (c.toggles.removeUrl && tok.likeUrl)
      || AllWhitespace(tok.text)
  {
    var t := c.toggles;
    if t.removePos.Some? && tok.pos_ in t.removePos.value then false
    else if t.removeStopwords && tok.isStop then false
    else if t.removePunctuation && tok.isPunct then false
    else if t.removeNumbers && tok.likeNum then false
    else if t.removeEmail && tok.likeEmail then false
    else if t.removeUrl && tok.likeUrl then false
    else if IsBlank(tok.text) then false
    else true
  }

  /** The cleaner's filter as a predicate value. */
  function Allowed(c: Cleaner): Token -> bool
  {
    tok => AllowedToken(c, tok)
  }

  /** What `_clean_doc` returns for `doc`. */
  function CleanedDoc(c: Cleaner, doc: Doc): string
  {
    Cleaned(Allowed(c), c.toggles.lemmatize, doc)
  }

  /** `_clean_doc(doc)`. */
  method CleanDoc(c: Cleaner, doc: Doc) returns (s: string)
    ensures s == CleanedDoc(c, doc)
    ensures forall i :: 0 <= i < |s| ==> !IsUpperAscii(s[i])
  {
    s := CleanTokens(Allowed(c), c.toggles.lemmatize, doc);
  }

  /** `cleaner.clean(texts)`, given the documents `model.pipe(texts)`
      yields: one lowercased result per document, in input order. */
  function Clean(c: Cleaner, docs: seq<Doc>): (r: seq<string>)
    ensures |r| == |docs|
    ensures forall i :: 0 <= i < |docs| ==> r[i] == CleanedDoc(c, docs[i])
  {
    seq(|docs|, i requires 0 <= i < |docs| => CleanedDoc(c, docs[i]))
  }

  /** `a` removes at least what `b` removes. */
  predicate AtLeastAsStrict(a: Toggles, b: Toggles)
  {
    && (b.removeNumbers ==> a.removeNumbers)
    && (b.removePunctuation ==> a.removePunctuation)
    && (b.removeStopwords ==> a.removeStopwords)
    && (b.removeEmail ==> a.removeEmail)
    && (b.removeUrl ==> a.removeUrl)
    && (b.removePos.Some? ==> a.removePos.Some? && forall p :: p in b.removePos.value ==> p in a.removePos.value)
  }

  /** Enabling more filters, or listing more POS tags, never lets a token through
      that was rejected before. */
  lemma StricterAllowsLess(a: Toggles, b: Toggles, tok: Token)
    requires AtLeastAsStrict(a, b)
    requires AllowedToken(Cleaner(a), tok)
    ensures AllowedToken(Cleaner(b), tok)
  {
  }
}
