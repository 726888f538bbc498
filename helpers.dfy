/** The rule-chain core: whitespace normalisation, the short-circuiting
    token pipe and the document reducer. */
module Helpers {
  import opened Text
  import opened Tokens

  /** The default replacement of `replace_multi_whitespace`. */
  const SingleSpace: string := " "

  /** `re.sub(r"\s\s+", replace, s)`: the leftmost-first, greedy scan
      rewrites every maximal run of two or more whitespace characters to
      `replace` and leaves everything else, single whitespace included, as it is. */
  function SubMultiWhitespace(s: string, replace: string): (r: string)
    ensures |replace| <= 2 ==> |r| <= |s|
    ensures s != [] && !IsWhitespace(s[0]) ==> r != [] && r[0] == s[0]
    decreases |s|
  {
    if |s| >= 2 && IsWhitespace(s[0]) && IsWhitespace(s[1]) then
      replace + SubMultiWhitespace(s[LeadingWhitespace(s)..], replace)
    else if s == [] then []
    else [s[0]] + SubMultiWhitespace(s[1..], replace)
  }

  /** `replace_multi_whitespace(s, replace)`: the runs rewritten, then stripped. */
  function ReplaceMultiWhitespace(s: string, replace: string): (r: string)
    ensures Trimmed(r)
    ensures |SubMultiWhitespace(s, replace)| >= |r|
  {
    Strip(SubMultiWhitespace(s, replace))
  }

  /** A string with no whitespace run to rewrite is left unchanged. */
  lemma {:induction false} SubFixesSingles(s: string, replace: string)
    requires NoDoubleWhitespace(s)
    ensures SubMultiWhitespace(s, replace) == s
  {
    if s != [] {
      assert !(|s| >= 2 && IsWhitespace(s[0]) && IsWhitespace(s[1]));
      SubFixesSingles(s[1..], replace);
      assert s == [s[0]] + s[1..];
    }
  }

  /** A rewrite that starts with a visible character starts with that character. */
  lemma SubStartsVisible(s: string, replace: string)
    requires s != [] && !IsWhitespace(s[0])
    ensures SubMultiWhitespace(s, replace) == [s[0]] + SubMultiWhitespace(s[1..], replace)
  {
  }

  /** A prefix with no run to rewrite and a visible last character is copied
      as it is, and the scan resumes after it. */
  lemma {:induction false} SubVisiblePrefix(a: string, b: string, replace: string)
    requires a != [] && NoDoubleWhitespace(a) && !IsWhitespace(a[|a| - 1])
    ensures SubMultiWhitespace(a + b, replace) == a + SubMultiWhitespace(b, replace)
  {
    assert (a + b)[0] == a[0];
    if |a| == 1 {
      assert (a + b)[1..] == b;
    } else {
      assert (a + b)[1] == a[1];
      assert (a + b)[1..] == a[1..] + b;
      SubVisiblePrefix(a[1..], b, replace);
    }
  }

  /** A whole run of two or more whitespace characters becomes one `replace`. */
  lemma SubRunPrefix(w: string, b: string, replace: string)
    requires |w| >= 2 && AllWhitespace(w) && (b == [] || !IsWhitespace(b[0]))
    ensures SubMultiWhitespace(w + b, replace) == replace + SubMultiWhitespace(b, replace)
  {
    var s := w + b;
    assert s[0] == w[0] && s[1] == w[1];
    var n := LeadingWhitespace(s);
    assert forall i :: 0 <= i < |w| ==> s[i] == w[i];
    assert b != [] ==> s[|w|] == b[0];
    assert n == |w|;
    assert s[n..] == b;
  }

  /** With a single space as replacement no two whitespace characters remain adjacent. */
  lemma {:induction false} SubSingleSpaceNoDouble(s: string)
    ensures NoDoubleWhitespace(SubMultiWhitespace(s, SingleSpace))
  {
    var r := SubMultiWhitespace(s, SingleSpace);
    if |s| >= 2 && IsWhitespace(s[0]) && IsWhitespace(s[1]) {
      var rest := s[LeadingWhitespace(s)..];
      SubSingleSpaceNoDouble(rest);
      if rest != [] {
        SubStartsVisible(rest, SingleSpace);
      }
      assert r == SingleSpace + SubMultiWhitespace(rest, SingleSpace);
    } else if s != [] {
      var rest := s[1..];
      SubSingleSpaceNoDouble(rest);
      if IsWhitespace(s[0]) && rest != [] {
        SubStartsVisible(rest, SingleSpace);
      }
      assert r == [s[0]] + SubMultiWhitespace(rest, SingleSpace);
    }
  }

  /** Rewriting runs to whitespace keeps the visible characters, in order. */
  lemma {:induction false} SubKeepsVisible(s: string, replace: string)
    requires AllWhitespace(replace)
    ensures Visible(SubMultiWhitespace(s, replace)) == Visible(s)
  {
    if |s| >= 2 && IsWhitespace(s[0]) && IsWhitespace(s[1]) {
      var n := LeadingWhitespace(s);
      SubKeepsVisible(s[n..], replace);
      VisibleAppend(replace, SubMultiWhitespace(s[n..], replace));
      VisibleOfWhitespace(replace);
      assert s == s[..n] + s[n..];
      VisibleAppend(s[..n], s[n..]);
      VisibleOfWhitespace(s[..n]);
    } else if s != [] {
      SubKeepsVisible(s[1..], replace);
      VisibleAppend([s[0]], SubMultiWhitespace(s[1..], replace));
      assert s == [s[0]] + s[1..];
      VisibleAppend([s[0]], s[1..]);
    }
  }

  /** With the default replacement the result is in normal form: trimmed and
      without two adjacent whitespace characters. */
  lemma MultiWhitespaceNormalForm(s: string)
    ensures Trimmed(ReplaceMultiWhitespace(s, SingleSpace))
    ensures NoDoubleWhitespace(ReplaceMultiWhitespace(s, SingleSpace))
  {
    SubSingleSpaceNoDouble(s);
  }

  /** Only runs of two or more whitespace characters are rewritten: a trimmed
      string whose whitespace characters all stand alone (a lone tab, say)
      comes back unchanged, whatever the replacement. */
  lemma MultiWhitespaceKeepsSingles(s: string, replace: string)
    requires Trimmed(s) && NoDoubleWhitespace(s)
    ensures ReplaceMultiWhitespace(s, replace) == s
  {
    SubFixesSingles(s, replace);
  }

  /** With the default replacement, normalising twice is normalising once. */
  lemma MultiWhitespaceIdempotent(s: string)
    ensures ReplaceMultiWhitespace(ReplaceMultiWhitespace(s, SingleSpace), SingleSpace)
         == ReplaceMultiWhitespace(s, SingleSpace)
  {
    MultiWhitespaceNormalForm(s);
    MultiWhitespaceKeepsSingles(ReplaceMultiWhitespace(s, SingleSpace), SingleSpace);
  }

  /** Normalising with a whitespace replacement neither drops, adds nor
      reorders a visible character. */
  lemma MultiWhitespaceKeepsVisible(s: string, replace: string)
    requires AllWhitespace(replace)
    ensures Visible(ReplaceMultiWhitespace(s, replace)) == Visible(s)
  {
    SubKeepsVisible(s, replace);
    StripKeepsVisible(SubMultiWhitespace(s, replace));
  }

  /** What a chain of processors makes of a token: the first string any
      processor returns, or the token the last processor handed on. */
  function Run(tok: Token, processors: seq<Rule>): Outcome
    decreases |processors|
  {
    if processors == [] then Keep(tok)
    else match processors[0](tok)
      case Replaced(s) => Replaced(s)
      case Keep(t) => Run(t, processors[1..])
  }

  /** The specification of `token_pipe`: the text of the chain's outcome. */
  function Pipe(tok: Token, processors: seq<Rule>): string
  {
    Str(Run(tok, processors))
  }

  /** Running `a + b` is running `a`, then, only if `a` produced no string,
      running `b` on the token `a` handed on. */
  lemma {:induction false} RunAppend(tok: Token, a: seq<Rule>, b: seq<Rule>)
    ensures Run(tok, a + b) == match Run(tok, a)
                               case Replaced(s) => Replaced(s)
                               case Keep(t) => Run(t, b)
    decreases |a|
  {
    if a == [] {
      assert a + b == b;
    } else {
      assert (a + b)[0] == a[0];
      assert (a + b)[1..] == a[1..] + b;
      match a[0](tok)
      case Replaced(s) =>
      case Keep(t) => RunAppend(t, a[1..], b);
    }
  }

  /** Short-circuit: once a prefix of the chain yields a string, that string
      is the result and no later processor is consulted. */
  lemma PipeStopsAtFirstString(tok: Token, a: seq<Rule>, later: seq<Rule>)
    requires Run(tok, a).Replaced?
    ensures Pipe(tok, a + later) == Run(tok, a).s
  {
    RunAppend(tok, a, later);
  }

  /** The processor at index `k` fires first: every earlier processor handed
      on the token it received unchanged, and this one returned a string. */
  lemma PipeFirstFiring(tok: Token, processors: seq<Rule>, k: nat)
    requires k < |processors|
    requires forall i :: 0 <= i < k ==> processors[i](tok) == Keep(tok)
    requires processors[k](tok).Replaced?
    ensures Pipe(tok, processors) == processors[k](tok).s
  {
    PassThroughPrefix(tok, processors[..k]);
    RunAppend(tok, processors[..k], processors[k..]);
    assert processors[..k] + processors[k..] == processors;
    assert processors[k..][0] == processors[k];
  }

  /** Processors that all hand the token on unchanged leave it untouched. */
  lemma {:induction false} PassThroughPrefix(tok: Token, processors: seq<Rule>)
    requires forall i :: 0 <= i < |processors| ==> processors[i](tok) == Keep(tok)
    ensures Run(tok, processors) == Keep(tok)
  {
    if processors != [] {
      PassThroughPrefix(tok, processors[1..]);
    }
  }

  /** If every processor passes the token through, the pipe returns its
      text; in particular an empty chain is the identity on the text. */
  lemma PipeAllPassThrough(tok: Token, processors: seq<Rule>)
    requires forall i :: 0 <= i < |processors| ==> processors[i](tok) == Keep(tok)
    ensures Pipe(tok, processors) == tok.text
  {
    PassThroughPrefix(tok, processors);
  }

  /** `token_pipe(tok, *processors)`: apply the processors in order until one
      returns a string. */
  method TokenPipe(tok: Token, processors: seq<Rule>) returns (s: string)
    ensures s == Pipe(tok, processors)
    ensures processors == [] ==> s == tok.text
  {
    var cur := tok;
    for i := 0 to |processors|
      invariant Run(cur, processors[i..]) == Run(tok, processors)
    {
      assert processors[i..][0] == processors[i];
      assert processors[i..][1..] == processors[i + 1..];
      var out := processors[i](cur);
      match out
      case Replaced(r) =>
        return r;
      case Keep(t) =>
        cur := t;
    }
    return cur.text;
  }

  /** `[token_pipe(tok, *processors) for tok in doc]`. */
  function PipeAll(doc: Doc, processors: seq<Rule>): (outs: seq<string>)
    ensures |outs| == |doc|
    ensures forall i :: 0 <= i < |doc| ==> outs[i] == Pipe(doc[i], processors)
  {
    seq(|doc|, i requires 0 <= i < |doc| => Pipe(doc[i], processors))
  }

  /** `clean_doc(doc, *processors)`: the single-space join of the piped
      tokens, normalised. The result is trimmed, has no two adjacent
      whitespace characters, and its visible characters are exactly those
      of the piped tokens, in document order. */
  function CleanDoc(doc: Doc, processors: seq<Rule>): (r: string)
    ensures Trimmed(r) && NoDoubleWhitespace(r)
    ensures Visible(r) == Visible(Concat(PipeAll(doc, processors)))
  {
    var joined := Join(SingleSpace, PipeAll(doc, processors));
    MultiWhitespaceNormalForm(joined);
    MultiWhitespaceKeepsVisible(joined, SingleSpace);
    JoinVisible(SingleSpace, PipeAll(doc, processors));
    ReplaceMultiWhitespace(joined, SingleSpace)
  }

  /** A document whose every token pipes to "" cleans to "". */
  lemma CleanDocAllRemoved(doc: Doc, processors: seq<Rule>)
    requires forall i :: 0 <= i < |doc| ==> Pipe(doc[i], processors) == ""
    ensures CleanDoc(doc, processors) == ""
  {
    ConcatOfEmpties(PipeAll(doc, processors));
    TrimmedInvisibleIsEmpty(CleanDoc(doc, processors));
  }

  /** With no processors a document cleans to the normalised join of its
      token texts. */
  lemma CleanDocNoProcessors(doc: Doc)
    ensures CleanDoc(doc, []) == ReplaceMultiWhitespace(Join(SingleSpace, seq(|doc|, i requires 0 <= i < |doc| => doc[i].text)), SingleSpace)
  {
    assert PipeAll(doc, []) == seq(|doc|, i requires 0 <= i < |doc| => doc[i].text);
  }

  /** The whitespace `SubJoinTail` leaves after the last word: one space
      when the run after it is not empty. */
  function TrailingRun(k: nat, parts: seq<string>): (t: string)
    ensures AllWhitespace(t)
    decreases |parts|
  {
    if parts == [] then (if k == 0 then [] else SingleSpace)
    else if parts[0] == [] then TrailingRun(k + 1, parts[1..])
    else TrailingRun(0, parts[1..])
  }

  /** A run of spaces before a visible character becomes a single space. */
  lemma SubSpacesBeforeVisible(k: nat, b: string)
    requires k >= 1 && b != [] && !IsWhitespace(b[0])
    ensures SubMultiWhitespace(Spaces(k) + b, SingleSpace) == " " + SubMultiWhitespace(b, SingleSpace)
  {
    if k >= 2 {
      SubRunPrefix(Spaces(k), b, SingleSpace);
    } else {
      var s := Spaces(k) + b;
      assert s[0] == ' ' && s[1] == b[0];
      assert s[1..] == b;
    }
  }

  /** A run of spaces at the very end is left as one space, or as nothing. */
  lemma SubSpacesAtEnd(k: nat)
    ensures SubMultiWhitespace(Spaces(k), SingleSpace) == (if k == 0 then [] else SingleSpace)
  {
    if k >= 2 {
      SubRunPrefix(Spaces(k), [], SingleSpace);
      assert Spaces(k) + [] == Spaces(k);
    } else if k == 1 {
      SubFixesSingles(Spaces(k), SingleSpace);
    }
  }

  /** A run of spaces, a word, then the rest: one space, the word, and the
      rewrite of the rest. */
  lemma SubSpacesWord(k: nat, w: string, rest: string)
    requires k >= 1 && w != [] && NoWhitespace(w)
    ensures SubMultiWhitespace(Spaces(k) + (w + rest), SingleSpace)
         == " " + w + SubMultiWhitespace(rest, SingleSpace)
  {
    assert (w + rest)[0] == w[0];
    SubSpacesBeforeVisible(k, w + rest);
    SubVisiblePrefix(w, rest, SingleSpace);
  }

  /** The claim of `SubJoinTail`. */
  predicate SubJoinTailHolds(k: nat, parts: seq<string>)
  {
    SubMultiWhitespace(Spaces(k) + JoinTail(parts), SingleSpace)
      == JoinTail(NonEmpty(parts)) + TrailingRun(k, parts)
  }

  /** The space before the first part joins the run before it. */
  lemma SpacesJoinTail(k: nat, parts: seq<string>)
    requires parts != []
    ensures Spaces(k) + JoinTail(parts) == Spaces(k + 1) + (parts[0] + JoinTail(parts[1..]))
  {
    var x := parts[0] + JoinTail(parts[1..]);
    assert JoinTail(parts) == " " + x by {
      AppendAssoc(" ", parts[0], JoinTail(parts[1..]));
    }
    SpacesSucc(k);
    AppendAssoc(Spaces(k), " ", x);
  }

  /** An empty first part lengthens the run of spaces by one. */
  lemma SubJoinTailEmptyHead(k: nat, parts: seq<string>)
    requires parts != [] && parts[0] == []
    requires SubJoinTailHolds(k + 1, parts[1..])
    ensures SubJoinTailHolds(k, parts)
  {
    var rest := parts[1..];
    SpacesJoinTail(k, parts);
    assert parts[0] + JoinTail(rest) == JoinTail(rest);
    assert NonEmpty(parts) == NonEmpty(rest);
    assert TrailingRun(k, parts) == TrailingRun(k + 1, rest);
  }

  /** A word as first part ends the run of spaces, which becomes one space. */
  lemma SubJoinTailWordHead(k: nat, parts: seq<string>)
    requires parts != [] && parts[0] != [] && NoWhitespace(parts[0])
    requires SubJoinTailHolds(0, parts[1..])
    ensures SubJoinTailHolds(k, parts)
  {
    var w := parts[0];
    var rest := parts[1..];
    SpacesJoinTail(k, parts);
    assert Spaces(0) + JoinTail(rest) == JoinTail(rest);
    SubSpacesWord(k + 1, w, JoinTail(rest));
    assert NonEmpty(parts) == [w] + NonEmpty(rest) by {
      assert parts[0] != [];
    }
    assert ([w] + NonEmpty(rest))[1..] == NonEmpty(rest);
    assert TrailingRun(k, parts) == TrailingRun(0, rest);
    AppendAssoc(" " + w, JoinTail(NonEmpty(rest)), TrailingRun(0, rest));
  }

  /** A run of `k` spaces followed by parts that are words or empty, each
      after a space: the rewrite is the words, each after one space, then
      the trailing run. */
  lemma {:induction false} SubJoinTail(k: nat, parts: seq<string>)
    requires forall i :: 0 <= i < |parts| ==> NoWhitespace(parts[i])
    ensures SubJoinTailHolds(k, parts)
    decreases |parts|
  {
    if parts == [] {
      assert Spaces(k) + JoinTail(parts) == Spaces(k);
      SubSpacesAtEnd(k);
    } else if parts[0] == [] {
      SubJoinTail(k + 1, parts[1..]);
      SubJoinTailEmptyHead(k, parts);
    } else {
      SubJoinTail(0, parts[1..]);
      SubJoinTailWordHead(k, parts);
    }
  }

  /** Stripping words that each follow a space, then trailing whitespace,
      gives the words joined by single spaces. */
  lemma StripJoinTail(words: seq<string>, t: string)
    requires forall i :: 0 <= i < |words| ==> words[i] != [] && NoWhitespace(words[i])
    requires AllWhitespace(t)
    ensures Strip(JoinTail(words) + t) == Join(SingleSpace, words)
  {
    if words == [] {
      assert JoinTail(words) + t == t;
      StripWhitespace(t);
    } else {
      var joined := Join(SingleSpace, words);
      assert JoinTail(words) == " " + joined by {
        JoinSplit(words);
        AppendAssoc(" ", words[0], JoinTail(words[1..]));
      }
      assert joined != [] && Trimmed(joined) by {
        JoinWordsTrimmed(words);
      }
      StripSurrounded(" ", joined, t);
    }
  }

  /** The same with a first word that no space precedes. */
  lemma StripWordJoinTail(w: string, words: seq<string>, t: string)
    requires w != [] && NoWhitespace(w)
    requires forall i :: 0 <= i < |words| ==> words[i] != [] && NoWhitespace(words[i])
    requires AllWhitespace(t)
    ensures Strip(w + (JoinTail(words) + t)) == Join(SingleSpace, [w] + words)
  {
    var x := JoinTail(words);
    var ps := [w] + words;
    var joined := Join(SingleSpace, ps);
    assert joined == w + x by {
      JoinSplit(ps);
      assert ps[1..] == words;
    }
    assert forall i :: 0 <= i < |ps| ==> ps[i] != [] && NoWhitespace(ps[i]) by {
      forall i | 0 <= i < |ps|
        ensures ps[i] != [] && NoWhitespace(ps[i])
      {
        if i > 0 {
          assert ps[i] == words[i - 1];
        }
      }
    }
    JoinWordsTrimmed(ps);
    StripSurrounded([], joined, t);
    assert [] + joined == joined;
    assert (w + x) + t == w + (x + t) by {
      AppendAssoc(w, x, t);
    }
  }

  lemma AppendAssoc(a: string, b: string, c: string)
    ensures (a + b) + c == a + (b + c)
  {
  }

  /** The rewrite of the parts after the first, each after a space. */
  lemma SubJoinTailAlone(rest: seq<string>)
    requires forall i :: 0 <= i < |rest| ==> NoWhitespace(rest[i])
    ensures SubMultiWhitespace(JoinTail(rest), SingleSpace) == JoinTail(NonEmpty(rest)) + TrailingRun(0, rest)
  {
    SubJoinTail(0, rest);
    assert Spaces(0) + JoinTail(rest) == JoinTail(rest);
  }

  /** The case of an empty first part. */
  lemma JoinWordsNormalisedEmptyHead(parts: seq<string>)
    requires parts != [] && parts[0] == []
    requires forall i :: 0 <= i < |parts| ==> NoWhitespace(parts[i])
    ensures ReplaceMultiWhitespace(Join(SingleSpace, parts), SingleSpace) == Join(SingleSpace, NonEmpty(parts))
  {
    var rest := parts[1..];
    var words := NonEmpty(rest);
    var t := TrailingRun(0, rest);
    var j := Join(SingleSpace, parts);
    JoinSplit(parts);
    assert j == JoinTail(rest);
    SubJoinTailAlone(rest);
    NonEmptyNoWhitespace(rest);
    var sub := SubMultiWhitespace(j, SingleSpace);
    assert sub == JoinTail(words) + t;
    assert ReplaceMultiWhitespace(j, SingleSpace) == Strip(sub);
    StripJoinTail(words, t);
    assert NonEmpty(parts) == words;
  }

  /** Rewriting the runs of a word followed by spaced parts leaves the word
      and rewrites what follows it. */
  lemma SubWordJoin(w: string, rest: seq<string>)
    requires w != [] && NoWhitespace(w)
    requires forall i :: 0 <= i < |rest| ==> NoWhitespace(rest[i])
    ensures SubMultiWhitespace(w + JoinTail(rest), SingleSpace)
         == w + (JoinTail(NonEmpty(rest)) + TrailingRun(0, rest))
  {
    SubJoinTailAlone(rest);
    WordPrefix(w, JoinTail(rest));
  }

  /** A word in front passes through the rewriting unchanged. */
  lemma WordPrefix(w: string, b: string)
    requires w != [] && NoWhitespace(w)
    ensures SubMultiWhitespace(w + b, SingleSpace) == w + SubMultiWhitespace(b, SingleSpace)
  {
    assert NoDoubleWhitespace(w) && !IsWhitespace(w[|w| - 1]);
    SubVisiblePrefix(w, b, SingleSpace);
  }

  /** The case of a word as first part. */
  lemma JoinWordsNormalisedWordHead(parts: seq<string>)
    requires parts != [] && parts[0] != []
    requires forall i :: 0 <= i < |parts| ==> NoWhitespace(parts[i])
    ensures ReplaceMultiWhitespace(Join(SingleSpace, parts), SingleSpace) == Join(SingleSpace, NonEmpty(parts))
  {
    var w := parts[0];
    var rest := parts[1..];
    var words := NonEmpty(rest);
    var t := TrailingRun(0, rest);
    var j := Join(SingleSpace, parts);
    assert j == w + JoinTail(rest) by {
      JoinSplit(parts);
    }
    SubWordJoin(w, rest);
    NonEmptyNoWhitespace(rest);
    StripWordJoinTail(w, words, t);
    assert NonEmpty(parts) == [w] + words;
  }

  /** Normalising the single-space join of words and empty strings gives
      the single-space join of the words alone: the empty strings leave no
      trace. */
  lemma JoinWordsNormalised(parts: seq<string>)
    requires forall i :: 0 <= i < |parts| ==> NoWhitespace(parts[i])
    ensures ReplaceMultiWhitespace(Join(SingleSpace, parts), SingleSpace) == Join(SingleSpace, NonEmpty(parts))
  {
    if parts == [] {
    } else if parts[0] == [] {
      JoinWordsNormalisedEmptyHead(parts);
    } else {
      JoinWordsNormalisedWordHead(parts);
    }
  }

  /** When every token pipes to a single word or to "", `clean_doc` is the
      single-space join of the words, in document order: the removed tokens
      leave neither a gap nor a stray space. */
  lemma CleanDocOfWords(doc: Doc, processors: seq<Rule>)
    requires forall i :: 0 <= i < |doc| ==> NoWhitespace(Pipe(doc[i], processors))
    ensures CleanDoc(doc, processors) == Join(SingleSpace, NonEmpty(PipeAll(doc, processors)))
  {
    JoinWordsNormalised(PipeAll(doc, processors));
  }
}
