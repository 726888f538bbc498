/** What the rule chain makes of particular tokens and strings: the
    chains `token_pipe` is documented with, and the documented example of
    `replace_multi_whitespace`. */
module ChainExamples {
  import opened Text
  import opened Tokens
  import opened Helpers
  import opened Removers
  import opened Mutators

  /** `token_pipe(tok, remove_stopword_token, mutate_lemma_token)`: a stopword
      becomes "", any other token its lemma ("swimming" gives "swim"). */
  lemma StopwordThenLemma(tok: Token)
    ensures Pipe(tok, [RemoveStopwordToken, MutateLemmaToken]) == if tok.isStop then "" else tok.lemma_
  {
    var rules: seq<Rule> := [RemoveStopwordToken, MutateLemmaToken];
    if tok.isStop {
      PipeFirstFiring(tok, rules, 0);
    } else {
      PipeFirstFiring(tok, rules, 1);
    }
  }

  /** `token_pipe(tok, remove_stopword_token)`: a token that is not a
      stopword comes back as its own text ("swimming" gives "swimming"). */
  lemma StopwordAlone(tok: Token)
    ensures Pipe(tok, [RemoveStopwordToken]) == if tok.isStop then "" else tok.text
  {
    var rules: seq<Rule> := [RemoveStopwordToken];
    if tok.isStop {
      PipeFirstFiring(tok, rules, 0);
    } else {
      PipeAllPassThrough(tok, rules);
    }
  }

  /** The pieces of `"   this  is a    test!"`: visible words and the
      whitespace runs between them. */
  lemma MultiWhitespacePieces()
    ensures "   this  is a    test!" == "   " + ("this" + ("  " + ("is a" + ("    " + "test!"))))
    ensures "this is a test!" == "this" + (" " + ("is a" + (" " + "test!")))
  {
  }

  /** The regular-expression pass over the documented example, one piece at
      a time from the right: each run of two or more spaces becomes one
      space and each word is copied. First `"    test!"`. */
  lemma SubExampleEnd()
    ensures SubMultiWhitespace("    " + "test!", SingleSpace) == " " + "test!"
  {
    assert NoDoubleWhitespace("test!") by {
      assert !IsWhitespace('t') && !IsWhitespace('e') && !IsWhitespace('s');
    }
    SubFixesSingles("test!", SingleSpace);
    assert AllWhitespace("    ") && !IsWhitespace("test!"[0]);
    SubRunPrefix("    ", "test!", SingleSpace);
  }

  /** Then `"is a    test!"`. */
  lemma SubExampleTail()
    ensures SubMultiWhitespace("is a" + ("    " + "test!"), SingleSpace) == "is a" + (" " + "test!")
  {
    SubExampleEnd();
    assert !IsWhitespace('i') && !IsWhitespace('s') && !IsWhitespace('a');
    SubVisiblePrefix("is a", "    " + "test!", SingleSpace);
  }

  /** Then `"this  is a    test!"`. */
  lemma SubExampleMiddle()
    ensures SubMultiWhitespace("this" + ("  " + ("is a" + ("    " + "test!"))), SingleSpace)
         == "this" + (" " + ("is a" + (" " + "test!")))
  {
    SubExampleTail();
    SubRunPrefix("  ", "is a" + ("    " + "test!"), SingleSpace);
    SubVisiblePrefix("this", "  " + ("is a" + ("    " + "test!")), SingleSpace);
  }

  /** Then the whole example, whose leading run leaves one space. */
  lemma MultiWhitespaceSubPieces()
    ensures SubMultiWhitespace("   " + ("this" + ("  " + ("is a" + ("    " + "test!")))), SingleSpace)
         == " " + ("this" + (" " + ("is a" + (" " + "test!"))))
  {
    SubExampleMiddle();
    SubRunPrefix("   ", "this" + ("  " + ("is a" + ("    " + "test!"))), SingleSpace);
  }

  /** Stripping a single leading space off a trimmed, non-empty string. */
  lemma StripOneSpace(r: string)
    requires r != [] && Trimmed(r)
    ensures Strip(" " + r) == r
  {
    var t := " " + r;
    assert t[0] == ' ' && t[1] == r[0];
    assert LeadingWhitespace(t) == 1;
    assert t[1..] == r;
  }

  /** The whole documented example in pieces: the leading space the first
      run leaves behind is stripped. */
  lemma MultiWhitespaceExampleByPieces()
    ensures ReplaceMultiWhitespace("   " + ("this" + ("  " + ("is a" + ("    " + "test!")))), SingleSpace)
         == "this" + (" " + ("is a" + (" " + "test!")))
  {
    MultiWhitespaceSubPieces();
    var r := "this" + (" " + ("is a" + (" " + "test!")));
    assert r[0] == 't' && r[|r| - 1] == '!';
    StripOneSpace(r);
  }

  /** `replace_multi_whitespace("   this  is a    test!") == "this is a test!"`. */
  lemma MultiWhitespaceExample()
    ensures ReplaceMultiWhitespace("   this  is a    test!", SingleSpace) == "this is a test!"
  {
    MultiWhitespaceExampleByPieces();
    MultiWhitespacePieces();
  }
}
