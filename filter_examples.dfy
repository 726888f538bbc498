/** What the toggle-based cleaners make of particular tokens and
    sentences, including the inputs on which the two POS filters go wrong. */
module FilterExamples {
  import opened Text
  import opened Tokens
  import opened Options
  import opened Exceptions
  import opened TokenFilter
  import CleaningCleaner
  import CleanersCleaner
  import Cleaner

  /** A verb with no other flag set, as the tagger would annotate "travelled". */
  function Travelled(): Token
  {
    Token("travelled", "travel", "VERB", false, false, false, false, false)
  }

  /** Only POS filtering is switched on, for the listed tags. */
  function PosOnly(tags: seq<string>): Toggles
  {
    Toggles(false, false, Some(tags), false, false, false, false)
  }

  /** `cleaners` package, as written: asking to remove nouns removes a verb,
      while the `cleaning` package, which tests the tag, keeps it. */
  lemma PosListIgnored()
    ensures !CleanersCleaner.AllowedToken(CleanersCleaner.Cleaner(PosOnly(["NOUN"])), Travelled())
    ensures CleaningCleaner.AllowedToken(CleaningCleaner.Cleaner(PosOnly(["NOUN"])), Travelled())
  {
    var t := Travelled();
    assert t.text[0] == 't';
    assert !AllWhitespace(t.text);
  }

  /** `"Annie is travelling to London at 9 AM"` as an annotator with a tagger
      and a lemmatizer marks it up. */
  function AnnieDoc(): Doc
  {
    [Token("Annie", "Annie", "PROPN", false, false, false, false, false),
     Token("is", "be", "AUX", true, false, false, false, false),
     Token("travelling", "travel", "VERB", false, false, false, false, false),
     Token("to", "to", "ADP", true, false, false, false, false),
     Token("London", "London", "PROPN", false, false, false, false, false),
     Token("at", "at", "ADP", true, false, false, false, false),
     Token("9", "9", "NUM", false, false, true, false, false),
     Token("AM", "am", "NOUN", true, false, false, false, false)]
  }

  /** Prepending one token to a document. */
  lemma KeptCons(allowed: Token -> bool, lemmatize: bool, t: Token, rest: Doc)
    ensures Kept(allowed, lemmatize, [t] + rest)
         == (if allowed(t) then [Emit(t, lemmatize)] else []) + Kept(allowed, lemmatize, rest)
  {
    KeptAppend(allowed, lemmatize, [t], rest);
    KeptSingle(allowed, lemmatize, t);
  }

  /** "to London at 9 AM" keeps only "London" when the three stopwords and
      the number are rejected. */
  lemma KeptAnnieTail(allowed: Token -> bool, lemmatize: bool, d: Doc)
    requires d == AnnieDoc()
    requires !allowed(d[3]) && allowed(d[4]) && !allowed(d[5]) && !allowed(d[6]) && !allowed(d[7])
    ensures Kept(allowed, lemmatize, d[3..]) == [Emit(d[4], lemmatize)]
  {
    assert d[7..] == [d[7]] + [];
    KeptCons(allowed, lemmatize, d[7], []);
    assert d[6..] == [d[6]] + d[7..];
    KeptCons(allowed, lemmatize, d[6], d[7..]);
    assert d[5..] == [d[5]] + d[6..];
    KeptCons(allowed, lemmatize, d[5], d[6..]);
    assert d[4..] == [d[4]] + d[5..];
    KeptCons(allowed, lemmatize, d[4], d[5..]);
    assert d[3..] == [d[3]] + d[4..];
    KeptCons(allowed, lemmatize, d[3], d[4..]);
  }

  /** The whole sentence: "Annie" and "London" are kept, "is" is rejected,
      and "travelling" is kept exactly when the filter allows it. */
  lemma KeptAnnie(allowed: Token -> bool, lemmatize: bool, d: Doc)
    requires d == AnnieDoc()
    requires allowed(d[0]) && !allowed(d[1])
    requires !allowed(d[3]) && allowed(d[4]) && !allowed(d[5]) && !allowed(d[6]) && !allowed(d[7])
    ensures Kept(allowed, lemmatize, d)
         == [Emit(d[0], lemmatize)] + (if allowed(d[2]) then [Emit(d[2], lemmatize)] else []) + [Emit(d[4], lemmatize)]
  {
    KeptAnnieTail(allowed, lemmatize, d);
    assert d[2..] == [d[2]] + d[3..];
    KeptCons(allowed, lemmatize, d[2], d[3..]);
    assert d[1..] == [d[1]] + d[2..];
    KeptCons(allowed, lemmatize, d[1], d[2..]);
    assert d == [d[0]] + d[1..];
    KeptCons(allowed, lemmatize, d[0], d[1..]);
  }

  /** The kept words for the three filters used below, with each filter's
      decisions on the eight tokens taken as given. */
  lemma KeptTexts(allowed: Token -> bool, d: Doc)
    requires d == AnnieDoc()
    requires allowed(d[0]) && !allowed(d[1]) && allowed(d[2]) && !allowed(d[3])
    requires allowed(d[4]) && !allowed(d[5]) && !allowed(d[6]) && !allowed(d[7])
    ensures Kept(allowed, false, d) == ["Annie", "travelling", "London"]
  {
    KeptAnnie(allowed, false, d);
  }

  lemma KeptLemmas(allowed: Token -> bool, d: Doc)
    requires d == AnnieDoc()
    requires allowed(d[0]) && !allowed(d[1]) && allowed(d[2]) && !allowed(d[3])
    requires allowed(d[4]) && !allowed(d[5]) && !allowed(d[6]) && !allowed(d[7])
    ensures Kept(allowed, true, d) == ["Annie", "travel", "London"]
  {
    KeptAnnie(allowed, true, d);
  }

  lemma KeptLemmasWithoutVerb(allowed: Token -> bool, d: Doc)
    requires d == AnnieDoc()
    requires allowed(d[0]) && !allowed(d[1]) && !allowed(d[2]) && !allowed(d[3])
    requires allowed(d[4]) && !allowed(d[5]) && !allowed(d[6]) && !allowed(d[7])
    ensures Kept(allowed, true, d) == ["Annie", "London"]
  {
    KeptAnnie(allowed, true, d);
  }

  /** `" ".join` of two and of three words. */
  lemma JoinTwo(a: string, b: string)
    ensures Join(" ", [a, b]) == a + " " + b
  {
    assert [a, b][1..] == [b];
  }

  lemma JoinThree(a: string, b: string, c: string)
    ensures Join(" ", [a, b, c]) == a + " " + (b + " " + c)
  {
    assert [a, b, c][1..] == [b, c];
    JoinTwo(b, c);
  }

  lemma LowerAnnieTravellingLondon(s: string)
    requires s == "Annie" + " " + ("travelling" + " " + "London")
    ensures Lower(s) == "annie travelling london"
  {
    var r := Lower(s);
    assert r[0] == 'a' && r[17] == 'l';
  }

  lemma LowerAnnieTravelLondon(s: string)
    requires s == "Annie" + " " + ("travel" + " " + "London")
    ensures Lower(s) == "annie travel london"
  {
    var r := Lower(s);
    assert r[0] == 'a' && r[13] == 'l';
  }

  lemma LowerAnnieLondon(s: string)
    requires s == "Annie" + " " + "London"
    ensures Lower(s) == "annie london"
  {
    var r := Lower(s);
    assert r[0] == 'a' && r[6] == 'l';
  }

  /** Default toggles with `remove_numbers=True`. */
  function RemoveNumbers(): Toggles
  {
    DefaultToggles.(removeNumbers := true)
  }

  /** Which tokens of the sentence the `cleaning` package's filter lets
      through with `remove_numbers=True`. */
  lemma CleaningRemoveNumbersAllowed(d: Doc)
    requires d == AnnieDoc()
    ensures var allowed := CleaningCleaner.Allowed(CleaningCleaner.Cleaner(RemoveNumbers()));
      && allowed(d[0]) && !allowed(d[1]) && allowed(d[2]) && !allowed(d[3])
      && allowed(d[4]) && !allowed(d[5]) && !allowed(d[6]) && !allowed(d[7])
  {
    assert !AllWhitespace(d[0].text) by { assert !IsWhitespace(d[0].text[0]); }
    assert !AllWhitespace(d[2].text) by { assert !IsWhitespace(d[2].text[0]); }
    assert !AllWhitespace(d[4].text) by { assert !IsWhitespace(d[4].text[0]); }
  }

  lemma CleaningRemoveNumbersKept(d: Doc)
    requires d == AnnieDoc()
    ensures Kept(CleaningCleaner.Allowed(CleaningCleaner.Cleaner(RemoveNumbers())), false, d)
         == ["Annie", "travelling", "London"]
  {
    CleaningRemoveNumbersAllowed(d);
    KeptTexts(CleaningCleaner.Allowed(CleaningCleaner.Cleaner(RemoveNumbers())), d);
  }

  /** The `cleaning` package's `Cleaner(model, remove_numbers=True)` cleans the
      sentence to "annie travelling london". */
  lemma CleaningRemoveNumbersExample()
    ensures CleaningCleaner.CleanedDoc(CleaningCleaner.Cleaner(RemoveNumbers()), AnnieDoc()) == "annie travelling london"
  {
    CleaningRemoveNumbersKept(AnnieDoc());
    JoinThree("Annie", "travelling", "London");
    LowerAnnieTravellingLondon("Annie" + " " + ("travelling" + " " + "London"));
  }

  /** `SpacyCleaner(nlp, remove_numbers=True, remove_pos=["VERB", "AUX"], lemmatize=True)`. */
  function VerbAuxCleaner(tokenEqualsTag: (Token, string) -> bool): Cleaner.SpacyCleaner
  {
    Cleaner.SpacyCleaner(
      DefaultToggles.(removeNumbers := true, removePos := Some(["VERB", "AUX"]), lemmatize := true),
      None, None, tokenEqualsTag)
  }

  /** A token none of whose filters fires passes `SpacyCleaner`'s loop. */
  lemma SpacyPasses(c: Cleaner.SpacyCleaner, tok: Token)
    requires !Cleaner.PosSkip(c, tok) && !Cleaner.IsStop(c, tok)
    requires !tok.isPunct && !tok.likeNum && !tok.likeEmail && !tok.likeUrl
    requires tok.text != [] && !IsWhitespace(tok.text[0])
    ensures Cleaner.Allowed(c)(tok)
  {
    assert !AllWhitespace(tok.text);
  }

  /** A stopword or, with `remove_numbers`, a number is skipped. */
  lemma SpacySkips(c: Cleaner.SpacyCleaner, tok: Token)
    requires || Cleaner.PosSkip(c, tok)
             || (c.toggles.removeStopwords && Cleaner.IsStop(c, tok))
             || (c.toggles.removeNumbers && tok.likeNum)
    ensures !Cleaner.Allowed(c)(tok)
  {
  }

  /** As written, the POS filter lets the content words through. */
  lemma VerbAuxAsWrittenKeeps(d: Doc)
    requires d == AnnieDoc()
    ensures var allowed := Cleaner.Allowed(VerbAuxCleaner(Cleaner.TokenNeverEqualsTag));
      allowed(d[0]) && allowed(d[2]) && allowed(d[4])
  {
    var c := VerbAuxCleaner(Cleaner.TokenNeverEqualsTag);
    Cleaner.PosFilterNeverFires(c.toggles, None, None, d[0]);
    Cleaner.PosFilterNeverFires(c.toggles, None, None, d[2]);
    Cleaner.PosFilterNeverFires(c.toggles, None, None, d[4]);
    SpacyPasses(c, d[0]);
    SpacyPasses(c, d[2]);
    SpacyPasses(c, d[4]);
  }

  /** The stopwords and the number are skipped whatever the POS filter does. */
  lemma VerbAuxAsWrittenSkips(d: Doc)
    requires d == AnnieDoc()
    ensures var allowed := Cleaner.Allowed(VerbAuxCleaner(Cleaner.TokenNeverEqualsTag));
      !allowed(d[1]) && !allowed(d[3]) && !allowed(d[5]) && !allowed(d[6]) && !allowed(d[7])
  {
    var c := VerbAuxCleaner(Cleaner.TokenNeverEqualsTag);
    SpacySkips(c, d[1]);
    SpacySkips(c, d[3]);
    SpacySkips(c, d[5]);
    SpacySkips(c, d[6]);
    SpacySkips(c, d[7]);
  }

  /** Which tokens pass the POS filter as written: the same as without it. */
  lemma VerbAuxAllowedAsWritten(d: Doc)
    requires d == AnnieDoc()
    ensures var allowed := Cleaner.Allowed(VerbAuxCleaner(Cleaner.TokenNeverEqualsTag));
      && allowed(d[0]) && !allowed(d[1]) && allowed(d[2]) && !allowed(d[3])
      && allowed(d[4]) && !allowed(d[5]) && !allowed(d[6]) && !allowed(d[7])
  {
    VerbAuxAsWrittenKeeps(d);
    VerbAuxAsWrittenSkips(d);
  }

  /** With the tag compared, the two proper nouns still pass... */
  lemma VerbAuxCorrectedKeeps(d: Doc)
    requires d == AnnieDoc()
    ensures var allowed := Cleaner.Allowed(VerbAuxCleaner(Cleaner.PosTagEquals));
      allowed(d[0]) && allowed(d[4])
  {
    var c := VerbAuxCleaner(Cleaner.PosTagEquals);
    var tags := c.toggles.removePos.value;
    assert tags[0] == "VERB" && tags[1] == "AUX";
    assert d[0].pos_ !in tags by { assert d[0].pos_[0] == 'P'; }
    assert d[4].pos_ !in tags by { assert d[4].pos_[0] == 'P'; }
    Cleaner.PosFilterByTag(c.toggles, None, None, d[0]);
    Cleaner.PosFilterByTag(c.toggles, None, None, d[4]);
    SpacyPasses(c, d[0]);
    SpacyPasses(c, d[4]);
  }

  /** ...and the verb is removed with the stopwords and the number. */
  lemma VerbAuxCorrectedSkips(d: Doc)
    requires d == AnnieDoc()
    ensures var allowed := Cleaner.Allowed(VerbAuxCleaner(Cleaner.PosTagEquals));
      !allowed(d[1]) && !allowed(d[2]) && !allowed(d[3]) && !allowed(d[5]) && !allowed(d[6]) && !allowed(d[7])
  {
    var c := VerbAuxCleaner(Cleaner.PosTagEquals);
    Cleaner.PosFilterByTag(c.toggles, None, None, d[2]);
    SpacySkips(c, d[1]);
    SpacySkips(c, d[2]);
    SpacySkips(c, d[3]);
    SpacySkips(c, d[5]);
    SpacySkips(c, d[6]);
    SpacySkips(c, d[7]);
  }

  lemma VerbAuxKept(d: Doc)
    requires d == AnnieDoc()
    ensures Kept(Cleaner.Allowed(VerbAuxCleaner(Cleaner.TokenNeverEqualsTag)), true, d)
         == ["Annie", "travel", "London"]
    ensures Kept(Cleaner.Allowed(VerbAuxCleaner(Cleaner.PosTagEquals)), true, d)
         == ["Annie", "London"]
  {
    VerbAuxAllowedAsWritten(d);
    VerbAuxCorrectedKeeps(d);
    VerbAuxCorrectedSkips(d);
    KeptLemmas(Cleaner.Allowed(VerbAuxCleaner(Cleaner.TokenNeverEqualsTag)), d);
    KeptLemmasWithoutVerb(Cleaner.Allowed(VerbAuxCleaner(Cleaner.PosTagEquals)), d);
  }

  /** As written, the verb survives the POS filter and is lemmatised: the
      sentence cleans to "annie travel london", not to the expected "annie london". */
  lemma VerbAuxAsWritten()
    ensures Cleaner.CleanedDoc(VerbAuxCleaner(Cleaner.TokenNeverEqualsTag), AnnieDoc()) == "annie travel london"
  {
    VerbAuxKept(AnnieDoc());
    JoinThree("Annie", "travel", "London");
    LowerAnnieTravelLondon("Annie" + " " + ("travel" + " " + "London"));
  }

  /** Comparing the tag instead, the verb is removed and the sentence cleans
      to "annie london". */
  lemma VerbAuxCorrected()
    ensures Cleaner.CleanedDoc(VerbAuxCleaner(Cleaner.PosTagEquals), AnnieDoc()) == "annie london"
  {
    VerbAuxKept(AnnieDoc());
    JoinTwo("Annie", "London");
    LowerAnnieLondon("Annie" + " " + "London");
  }
}
