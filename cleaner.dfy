/** `SpacyCleaner`, the first toggle-based cleaner: it also accepts extra
    stopwords, and its POS test compares the token object itself with the
    listed tags. */
module Cleaner {
  import opened Text
  import opened Tokens
  import opened Options
  import opened Exceptions
  import opened TokenFilter
  import CleaningCleaner

  /** A constructed cleaner. `stopwords` is the stopword set the constructor
      installs in the model's vocabulary when extra stopwords are given
      (`None`: the annotator's own `is_stop` flag stands). `tokenEqualsTag` is
      Python's `==` between a token object and one string of the POS list,
      which `tok in self.remove_pos` applies element by element. */
  datatype SpacyCleaner = SpacyCleaner(
    toggles: Toggles,
    extraStopwords: Option<seq<string>>,
    stopwords: Option<set<string>>,
    tokenEqualsTag: (Token, string) -> bool)

  /** `SpacyCleaner(spacy_model, ...)`, given spaCy's default English stopword
      set: extra stopwords without stopword removal are a `ValueError`;
      otherwise extra stopwords extend the default set. */
  function NewSpacyCleaner(toggles: Toggles, extraStopwords: Option<seq<string>>,
                           defaultStopwords: set<string>,
                           tokenEqualsTag: (Token, string) -> bool): (r: Result<SpacyCleaner>)
    ensures r.Err? <==> !toggles.removeStopwords && extraStopwords.Some?
    ensures r.Err? ==> r.error.ValueError?
    ensures r.Ok? ==> r.value.toggles == toggles && r.value.extraStopwords == extraStopwords
    ensures r.Ok? ==> (r.value.stopwords.Some? <==> extraStopwords.Some?)
    ensures r.Ok? && extraStopwords.Some? ==>
      forall w :: w in r.value.stopwords.value <==> w in defaultStopwords || w in extraStopwords.value
  {
    if !toggles.removeStopwords && extraStopwords.Some? then
      Err(ValueError("Please set remove_stopwords=True to remove extra stopwords"))
    else if extraStopwords.Some? then
      var extra := set w | w in extraStopwords.value;
      Ok(SpacyCleaner(toggles, extraStopwords, Some(defaultStopwords + extra), tokenEqualsTag))
    else
      Ok(SpacyCleaner(toggles, extraStopwords, None, tokenEqualsTag))
  }

  /** `tok.is_stop` once the constructor has run: with a replaced stopword set,
      whether the lowercased text is in it. */
  function IsStop(c: SpacyCleaner, tok: Token): (b: bool)
    ensures c.stopwords.None? ==> (b <==> tok.isStop)
    ensures c.stopwords.Some? ==> (b <==> Lower(tok.text) in c.stopwords.value)
  {
    match c.stopwords
    case None => tok.isStop
    case Some(words) => Lower(tok.text) in words
  }

  /** `tok in tags`: some element of the list compares equal to the token. */
  function TokenIn(eq: (Token, string) -> bool, tok: Token, tags: seq<string>): (b: bool)
    ensures b <==> exists i :: 0 <= i < |tags| && eq(tok, tags[i])
  {
    if tags == [] then false
    else eq(tok, tags[0]) || TokenIn(eq, tok, tags[1..])
  }

  /** The POS test of the loop: `self.remove_pos and (tok in self.remove_pos) and tok.pos_`. */
  predicate PosSkip(c: SpacyCleaner, tok: Token)
  {
    && c.toggles.removePos.Some?
    && c.toggles.removePos.value != []
    && TokenIn(c.tokenEqualsTag, tok, c.toggles.removePos.value)
    && tok.pos_ != ""
  }

  /** Whether the loop of `_clean_pipe` reaches `continue` for `tok`. */
  predicate Skipped(c: SpacyCleaner, tok: Token)
  {
    || PosSkip(c, tok)
    || (c.toggles.removeStopwords && IsStop(c, tok))
    || (c.toggles.removePunctuation && tok.isPunct)
    || (c.toggles.removeNumbers && tok.likeNum)
    || (c.toggles.removeEmail && tok.likeEmail)
    || (c.toggles.removeUrl && tok.likeUrl)
    || IsBlank(tok.text)
  }

  /** The tokens `_clean_pipe` lets through, as a predicate value. */
  function Allowed(c: SpacyCleaner): Token -> bool
  {
    tok => !Skipped(c, tok)
  }

  /** What `_clean_pipe` returns for `doc`. */
  function CleanedDoc(c: SpacyCleaner, doc: Doc): string
  {
    Cleaned(Allowed(c), c.toggles.lemmatize, doc)
  }

  /** `_clean_pipe(doc)`: one `continue` per filter, then the lemma or the text
      is appended; the list is joined with single spaces and lowercased. */
  method CleanPipe(c: SpacyCleaner, doc: Doc) returns (s: string)
    ensures s == CleanedDoc(c, doc)
    ensures forall i :: 0 <= i < |s| ==> !IsUpperAscii(s[i])
  {
    var tokens: seq<string> := [];
    var t := c.toggles;
    for i := 0 to |doc|
      invariant tokens == Kept(Allowed(c), t.lemmatize, doc[..i])
    {
      var tok := doc[i];
      KeptStep(Allowed(c), t.lemmatize, doc, i);
      assert Allowed(c)(tok) <==> !Skipped(c, tok);
      if t.removePos.Some? && t.removePos.value != [] && TokenIn(c.tokenEqualsTag, tok, t.removePos.value) && tok.pos_ != "" {
        continue;
      }
      if t.removeStopwords && IsStop(c, tok) {
        continue;
      }
      if t.removePunctuation && tok.isPunct {
        continue;
      }
      if t.removeNumbers && tok.likeNum {
        continue;
      }
      if t.removeEmail && tok.likeEmail {
        continue;
      }
      if t.removeUrl && tok.likeUrl {
        continue;
      }
      if IsBlank(tok.text) {
        continue;
      }
      if t.lemmatize {
        tokens := tokens + [tok.lemma_];
      } else {
        tokens := tokens + [tok.text];
      }
    }
    assert doc[..|doc|] == doc;
    s := Lower(Join(" ", tokens));
  }

  /** `cleaner.clean(texts)`, given the documents `spacy_model.pipe(texts)`
      yields: one result per text, in order. */
  function Clean(c: SpacyCleaner, docs: seq<Doc>): (r: seq<string>)
    ensures |r| == |docs|
    ensures forall i :: 0 <= i < |docs| ==> r[i] == CleanedDoc(c, docs[i])
  {
    seq(|docs|, i requires 0 <= i < |docs| => CleanedDoc(c, docs[i]))
  }

  /** With extra stopwords, a token counts as a stopword exactly when its
      lowercased text is a default stopword or one of the extra words. */
  lemma ExtraStopwordsExtendDefault(toggles: Toggles, extra: seq<string>, defaultStopwords: set<string>,
                                    eq: (Token, string) -> bool, tok: Token)
    requires toggles.removeStopwords
    ensures NewSpacyCleaner(toggles, Some(extra), defaultStopwords, eq).Ok?
    ensures IsStop(NewSpacyCleaner(toggles, Some(extra), defaultStopwords, eq).value, tok)
        <==> Lower(tok.text) in defaultStopwords || Lower(tok.text) in extra
  {
  }

  /** Python's `==` between a spaCy token and a string, assumed false: a token
      is taken to compare equal only to another token. spaCy's comparison may
      instead raise `TypeError` for a string operand; that is not represented. */
  function TokenNeverEqualsTag(tok: Token, tag: string): bool
  {
    false
  }

  /** The evidently intended comparison: the token's POS tag is the listed tag. */
  function PosTagEquals(tok: Token, tag: string): bool
  {
    tok.pos_ == tag
  }

  /** As written, the POS filter never removes a token: membership of the
      token object in a list of strings is never true. */
  lemma PosFilterNeverFires(toggles: Toggles, extra: Option<seq<string>>, stopwords: Option<set<string>>, tok: Token)
    ensures !PosSkip(SpacyCleaner(toggles, extra, stopwords, TokenNeverEqualsTag), tok)
  {
  }

  /** With the intended comparison, a tagged token whose tag is listed is
      removed, and one whose tag is not listed passes the POS test. */
  lemma PosFilterByTag(toggles: Toggles, extra: Option<seq<string>>, stopwords: Option<set<string>>, tok: Token)
    requires toggles.removePos.Some? && tok.pos_ != ""
    ensures PosSkip(SpacyCleaner(toggles, extra, stopwords, PosTagEquals), tok)
        <==> tok.pos_ in toggles.removePos.value
  {
    var c := SpacyCleaner(toggles, extra, stopwords, PosTagEquals);
    if tok.pos_ in toggles.removePos.value {
      var i :| 0 <= i < |toggles.removePos.value| && toggles.removePos.value[i] == tok.pos_;
      assert PosTagEquals(tok, toggles.removePos.value[i]);
    }
  }

  /** With the intended tag comparison and without extra stopwords, the loop
      of `_clean_pipe` skips a tagged token exactly when the later cleaner's
      `_allowed_token` rejects it: the two cleaners then filter alike. */
  lemma SkippedAgreesWithAllowedToken(toggles: Toggles, tok: Token)
    requires tok.pos_ != ""
    ensures Skipped(SpacyCleaner(toggles, None, None, PosTagEquals), tok)
        <==> !CleaningCleaner.AllowedToken(CleaningCleaner.Cleaner(toggles), tok)
  {
    if toggles.removePos.Some? {
      PosFilterByTag(toggles, None, None, tok);
    }
  }
}
