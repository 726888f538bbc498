/** What the toggle-based cleaners share: their configuration record and
    the per-document loop that keeps the allowed tokens, emits the lemma or
    the text of each, joins them with single spaces and lowercases. */
module TokenFilter {
  import opened Text
  import opened Tokens
  import opened Options

  /** The constructor's options, with the toggles' defaults below. `removePos`
      is `None` when no list was passed. */
  datatype Toggles = Toggles(
    removeNumbers: bool,
    removePunctuation: bool,
    removePos: Option<seq<string>>,
    removeStopwords: bool,
    removeEmail: bool,
    removeUrl: bool,
    lemmatize: bool)

  const DefaultToggles: Toggles := Toggles(false, true, None, true, true, true, false)

  /** What a kept token contributes: `str(tok.lemma_)` or `str(tok)`. */
  function Emit(tok: Token, lemmatize: bool): string
  {
    if lemmatize then tok.lemma_ else tok.text
  }

  /** The `tokens` list the loop builds for `doc`. */
  function Kept(allowed: Token -> bool, lemmatize: bool, doc: Doc): (r: seq<string>)
    ensures |r| <= |doc|
    decreases |doc|
  {
    if doc == [] then []
    else
      var last := doc[|doc| - 1];
      Kept(allowed, lemmatize, doc[..|doc| - 1]) + (if allowed(last) then [Emit(last, lemmatize)] else [])
  }

  /** The string the loop returns. */
  function Cleaned(allowed: Token -> bool, lemmatize: bool, doc: Doc): string
  {
    Lower(Join(" ", Kept(allowed, lemmatize, doc)))
  }

  /** One more token of the document: the kept list grows by that token's
      emission exactly when it is allowed. */
  lemma KeptStep(allowed: Token -> bool, lemmatize: bool, doc: Doc, i: nat)
    requires i < |doc|
    ensures Kept(allowed, lemmatize, doc[..i + 1])
         == Kept(allowed, lemmatize, doc[..i]) + (if allowed(doc[i]) then [Emit(doc[i], lemmatize)] else [])
  {
    assert doc[..i + 1][..i] == doc[..i];
  }

  /** Keeping is compositional: the kept tokens of `a + b` are those of `a`
      followed by those of `b`, so document order is preserved. */
  lemma {:induction false} KeptAppend(allowed: Token -> bool, lemmatize: bool, a: Doc, b: Doc)
    ensures Kept(allowed, lemmatize, a + b) == Kept(allowed, lemmatize, a) + Kept(allowed, lemmatize, b)
    decreases |b|
  {
    if b == [] {
      assert a + b == a;
    } else {
      var b' := b[..|b| - 1];
      assert (a + b)[..|a + b| - 1] == a + b';
      assert (a + b)[|a + b| - 1] == b[|b| - 1];
      KeptAppend(allowed, lemmatize, a, b');
    }
  }

  /** A single token is kept, as its lemma or its text, exactly when it is allowed. */
  lemma KeptSingle(allowed: Token -> bool, lemmatize: bool, tok: Token)
    ensures Kept(allowed, lemmatize, [tok]) == if allowed(tok) then [Emit(tok, lemmatize)] else []
  {
    assert [tok][..0] == [];
  }

  /** Every kept string is the emission of an allowed token of the document. */
  lemma {:induction false} KeptFromAllowed(allowed: Token -> bool, lemmatize: bool, doc: Doc, j: nat)
    requires j < |Kept(allowed, lemmatize, doc)|
    ensures exists i :: 0 <= i < |doc| && allowed(doc[i]) && Kept(allowed, lemmatize, doc)[j] == Emit(doc[i], lemmatize)
    decreases |doc|
  {
    var init := doc[..|doc| - 1];
    var last := doc[|doc| - 1];
    if j < |Kept(allowed, lemmatize, init)| {
      KeptFromAllowed(allowed, lemmatize, init, j);
      var i :| 0 <= i < |init| && allowed(init[i]) && Kept(allowed, lemmatize, init)[j] == Emit(init[i], lemmatize);
      assert doc[i] == init[i];
    } else {
      assert doc[|doc| - 1] == last;
    }
  }

  /** When nothing is filtered out, every token is emitted, in order. */
  lemma {:induction false} KeptEverything(allowed: Token -> bool, lemmatize: bool, doc: Doc)
    requires forall i :: 0 <= i < |doc| ==> allowed(doc[i])
    ensures Kept(allowed, lemmatize, doc) == seq(|doc|, i requires 0 <= i < |doc| => Emit(doc[i], lemmatize))
    decreases |doc|
  {
    if doc != [] {
      KeptEverything(allowed, lemmatize, doc[..|doc| - 1]);
    }
  }

  /** `_clean_doc(doc)`: the loop over the tokens with `continue` for the
      rejected ones, then `" ".join(tokens).lower()`. */
  method CleanTokens(allowed: Token -> bool, lemmatize: bool, doc: Doc) returns (s: string)
    ensures s == Cleaned(allowed, lemmatize, doc)
    ensures forall i :: 0 <= i < |s| ==> !IsUpperAscii(s[i])
  {
    var tokens: seq<string> := [];
    for i := 0 to |doc|
      invariant tokens == Kept(allowed, lemmatize, doc[..i])
    {
      assert doc[..i + 1][..i] == doc[..i];
      var tok := doc[i];
      if !allowed(tok) {
        continue;
      }
      if lemmatize {
        tokens := tokens + [tok.lemma_];
      } else {
        tokens := tokens + [tok.text];
      }
    }
    assert doc[..|doc|] == doc;
    s := Lower(Join(" ", tokens));
  }
}
