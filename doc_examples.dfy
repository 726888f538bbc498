/** What a whole rule-chain cleaner makes of a parsed sentence: the chain
    "remove stopwords, replace punctuation, take the lemma" applied to
    "Annie is travelling to London at 9 AM". */
module DocExamples {
  import opened Text
  import opened Tokens
  import opened Helpers
  import opened Removers
  import opened Replacers
  import opened Mutators
  import opened FilterExamples

  /** `remove_stopword_token, replace_punctuation_token, mutate_lemma_token`. */
  function StopPunctLemma(): seq<Rule>
  {
    [RemoveStopwordToken, ReplacePunctuation(), MutateLemmaToken]
  }

  /** Through that chain a stopword becomes "", punctuation the placeholder
      and every other token its lemma. */
  lemma StopPunctLemmaPipe(tok: Token)
    ensures Pipe(tok, StopPunctLemma())
         == if tok.isStop then "" else if tok.isPunct then IsPunctPlaceholder else tok.lemma_
  {
    var rules := StopPunctLemma();
    if tok.isStop {
      PipeFirstFiring(tok, rules, 0);
    } else if tok.isPunct {
      PipeFirstFiring(tok, rules, 1);
    } else {
      PipeFirstFiring(tok, rules, 2);
    }
  }

  /** Through that chain a document pipes to the table of those three cases. */
  lemma PipedByFlags(d: Doc, ps: seq<string>)
    requires |ps| == |d|
    requires forall i :: 0 <= i < |d| ==>
      ps[i] == if d[i].isStop then "" else if d[i].isPunct then IsPunctPlaceholder else d[i].lemma_
    ensures PipeAll(d, StopPunctLemma()) == ps
  {
    forall i | 0 <= i < |d|
      ensures Pipe(d[i], StopPunctLemma()) == ps[i]
    {
      StopPunctLemmaPipe(d[i]);
    }
  }

  /** The piped tokens of the sentence: the stopwords "is", "to", "at" and
      "AM" leave "", the others their lemmas. */
  lemma AnniePiped(d: Doc)
    requires d == AnnieDoc()
    ensures PipeAll(d, StopPunctLemma()) == ["Annie", "", "travel", "", "London", "", "9", ""]
  {
    PipedByFlags(d, ["Annie", "", "travel", "", "London", "", "9", ""]);
  }

  /** The words among the piped tokens. */
  lemma AnnieWords()
    ensures NonEmpty(["Annie", "", "travel", "", "London", "", "9", ""]) == ["Annie", "travel", "London", "9"]
  {
    var ps := ["Annie", "", "travel", "", "London", "", "9", ""];
    assert ps[1..][1..][1..][1..][1..][1..][1..][1..] == [];
  }

  /** The piped tokens hold no whitespace. */
  lemma AnniePipedWords(ps: seq<string>)
    requires ps == ["Annie", "", "travel", "", "London", "", "9", ""]
    ensures forall i :: 0 <= i < |ps| ==> NoWhitespace(ps[i])
  {
  }

  /** The single-space join of the four words. */
  lemma AnnieJoined()
    ensures Join(SingleSpace, ["Annie", "travel", "London", "9"]) == "Annie travel London 9"
  {
    var ws := ["Annie", "travel", "London", "9"];
    assert ws[1..] == ["travel", "London", "9"];
    assert ws[1..][1..] == ["London", "9"];
    assert ws[1..][1..][1..] == ["9"];
  }

  /** The cleaner of the pipeline test turns the sentence into
      "Annie travel London 9": the stopwords vanish without a trace, the
      verb is lemmatised and the case is kept. */
  lemma AnnieCleaned(d: Doc)
    requires d == AnnieDoc()
    ensures CleanDoc(d, StopPunctLemma()) == "Annie travel London 9"
  {
    AnniePiped(d);
    var ps := PipeAll(d, StopPunctLemma());
    AnniePipedWords(ps);
    CleanDocOfWords(d, StopPunctLemma());
    AnnieWords();
    AnnieJoined();
  }
}
