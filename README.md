# spacy-cleaner, modelled in Dafny

spacy-cleaner turns documents that spaCy has already parsed into one cleaned
string each. The library has two generations of cleaner, and this model
covers both.

- **Rule-chain cleaners.** These are `Cleaner` in `cleaners.py` and `Pipeline`
  in `cleaning/pipeline.py`. Each token is passed through a chain of token
  processors. The first processor that returns a string decides the token's
  text (`token_pipe`). The pieces are joined with single spaces, then
  normalised: every run of two or more whitespace characters becomes one
  replacement, and the result is stripped (`clean_doc`,
  `replace_multi_whitespace`).
- **Processors.** Evaluators (`StopwordsEvaluator`, …) test one flag of a
  token. `Transformer` and `Processor` pair an evaluator with a replacement
  string. The ready-made rules are `replace_*_token`, `remove_stopword_token`
  and `mutate_lemma_token`.
- **Toggle cleaners.** These are `SpacyCleaner` in `cleaner.py`, the
  `cleaners` package's `Cleaner`, and the `cleaning` package's `Cleaner`.
  Each has a fixed set of boolean filters and a part-of-speech list. The
  `_clean_doc` / `_clean_pipe` loop skips rejected tokens, emits each kept
  token's text or lemma, joins with single spaces and lowercases.

## How the model is built

- A spaCy token is a value (`Tokens.Token`) carrying its text, lemma,
  part-of-speech tag and the annotator's flags. A document is a sequence of
  tokens.
- What a processor returns (`Union[str, Token]`) is `Outcome`. A processor is
  a function `Token -> Outcome`.
- Tokenisation, tagging, lemmatisation and the flag detectors belong to spaCy.
  They are inputs to the model.
- The cleaners' fields are set once by their constructors and never changed.
  So cleaners are datatypes, and the constructors are functions.
  - A constructor that may fail returns `Result`: `SpacyCleanerMisconfigurationError` or `ValueError`.
  - A constructor that may warn first records the warning in `Built.warned`.
- The loops of the source are methods proved against specification functions:
  - `token_pipe` (`Helpers.TokenPipe` against `Helpers.Pipe`);
  - `_clean_doc` (`TokenFilter.CleanTokens` against `TokenFilter.Cleaned`);
  - `_clean_pipe` (`Cleaner.CleanPipe` against `Cleaner.CleanedDoc`).
- Python's whitespace class, shared by the regular-expression `\s` and by
  `str.strip()`, is written out as a table (`Text.IsWhitespace`). `re.sub(r"\s\s+", …)` is a
  left-to-right scan over maximal runs (`Helpers.SubMultiWhitespace`).
- `clean(texts)` is modelled on the documents that `model.pipe(texts)`
  yields, one per text, in order.

Two documented behaviours differ from what the code does. The model follows the code:

- The docstring of `replace_multi_whitespace` promises that all whitespace is
  replaced with a single space. `re.sub(r"\s\s+", …)` rewrites only runs of
  two or more, so a lone tab or newline between words is kept
  (`Helpers.MultiWhitespaceKeepsSingles`).
- The usage example in the docstring of `cleaners.py` shows lowercase output.
  The rule-chain `clean` never lowercases: a document keeps its case
  (`DocExamples.AnnieCleaned` gives "Annie travel London 9", as
  `tests/test_pipeline.py` expects).

## Model

| member | source | states |
|---|---|---|
| Text.Strip | spacy_cleaner/processing/helpers.py:19 | `str.strip()` returns a string with no whitespace at either end, no longer than its input, equal to the input when that was already trimmed, and it creates no adjacent whitespace pair |
| Text.IsBlank | spacy_cleaner/cleaning/cleaner.py:170 | `tok.text.strip() == ""` holds exactly when every character of the text is whitespace (the empty text included) |
| Text.StripKeepsVisible | spacy_cleaner/processing/helpers.py:19 | stripping removes only whitespace: the visible characters survive in order |
| Text.JoinVisible | spacy_cleaner/processing/helpers.py:58 | joining with a whitespace separator adds no visible character to those of the parts |
| Text.Lower | spacy_cleaner/cleaning/cleaner.py:145 | `.lower()` keeps the length, turns each ASCII capital into the same letter in lower case, and changes no other character |
| Text.Join | spacy_cleaner/processing/helpers.py:58 | `sep.join(parts)` starts with the first part and is as long as all the parts plus one separator between each two neighbours; `Text.JoinSplit` states the head-and-tail decomposition |
| Evaluators.Evaluate | spacy_cleaner/processing/evaluators.py:24-81 | each built-in evaluator answers with exactly its flag (`is_stop`, `is_punct`, `like_email`, `like_url`); any other evaluator with its own predicate |
| Evaluators.BuiltinReadsOneFlag | spacy_cleaner/processing/evaluators.py:27-81 | a built-in evaluator gives equal answers on tokens that agree on its one flag, whatever their text, lemma or other flags |
| Transformers.Transform | spacy_cleaner/processing/transformers.py:30-39 | the result is the replacement or the very same token, and it is the replacement exactly when the evaluator accepts the token |
| Processors.Process | spacy_cleaner/processing/processor.py:23-32 | the same two-way contract for `Processor.process` |
| Processors.ProcessAgreesWithTransform | spacy_cleaner/processing/processor.py:19-32 | a `Processor` and a `Transformer` built from the same evaluator and replacement treat every token alike |
| Replacers.ReplacePunctuationToken | spacy_cleaner/processing/replacers.py:10-24 | punctuation becomes the given replacement; any other token is handed on unchanged |
| Replacers.ReplaceStopwordToken | spacy_cleaner/processing/replacers.py:27-41 | a stopword becomes the given replacement; any other token is handed on unchanged |
| Replacers.ReplaceLikeEmailToken | spacy_cleaner/processing/replacers.py:44-58 | an email-like token becomes the given replacement; any other token is handed on unchanged |
| Replacers.ReplacePunctuation | spacy_cleaner/processing/replacers.py:10-12 | with the default argument, every punctuation token becomes `_IS_PUNCT_` and every other token is handed on unchanged |
| Replacers.ReplaceStopword | spacy_cleaner/processing/replacers.py:27-29 | with the default argument, every stopword becomes `_IS_STOP_` and every other token is handed on unchanged |
| Replacers.ReplaceLikeEmail | spacy_cleaner/processing/replacers.py:44-46 | with the default argument, every email-like token becomes `_LIKE_EMAIL_` and every other token is handed on unchanged |
| Replacers.PlaceholdersDistinct | spacy_cleaner/processing/replacers.py:11-45 | the three default placeholders `_IS_PUNCT_`, `_IS_STOP_`, `_LIKE_EMAIL_` are pairwise different |
| Removers.RemoveStopwordToken | spacy_cleaner/processing/removers.py:10-21 | a stopword becomes "", any other token is handed on unchanged; the only string it ever yields is "" |
| Mutators.LemmaEndsChain | spacy_cleaner/processing/mutators.py:6-15 | `mutate_lemma_token` always yields a string, so once every earlier rule has handed the token on, the chain's result is the lemma whatever follows |
| Helpers.ReplaceMultiWhitespace | spacy_cleaner/processing/helpers.py:9-19 | the result is trimmed and no longer than the rewritten string |
| Helpers.SubMultiWhitespace | spacy_cleaner/processing/helpers.py:19 | `re.sub(r"\s\s+", replace, s)` with a replacement of at most two characters never lengthens the string, and a visible first character stays first; `SubFixesSingles`, `SubVisiblePrefix` and `SubRunPrefix` state what happens to each kind of stretch |
| Helpers.SubFixesSingles | spacy_cleaner/processing/helpers.py:19 | a string with no two adjacent whitespace characters is left unchanged by the rewrite |
| Helpers.SubVisiblePrefix | spacy_cleaner/processing/helpers.py:19 | a prefix with no run and a visible last character is copied, and the scan resumes after it |
| Helpers.SubRunPrefix | spacy_cleaner/processing/helpers.py:19 | a whole run of two or more whitespace characters becomes one replacement |
| Helpers.SubSingleSpaceNoDouble | spacy_cleaner/processing/helpers.py:19 | with a single space as replacement, no two whitespace characters remain adjacent |
| Helpers.SubKeepsVisible | spacy_cleaner/processing/helpers.py:19 | with a whitespace replacement, the rewrite keeps the visible characters in order |
| Helpers.MultiWhitespaceNormalForm | spacy_cleaner/processing/helpers.py:9-19 | with the default replacement, the result is trimmed and has no two adjacent whitespace characters |
| Helpers.MultiWhitespaceKeepsSingles | spacy_cleaner/processing/helpers.py:9-19 | a trimmed string whose whitespace characters all stand alone is returned unchanged, for any replacement |
| Helpers.MultiWhitespaceIdempotent | spacy_cleaner/processing/helpers.py:9-19 | with the default replacement, normalising twice is normalising once |
| Helpers.MultiWhitespaceKeepsVisible | spacy_cleaner/processing/helpers.py:9-19 | with a whitespace replacement, normalising neither drops, adds nor reorders a visible character |
| Helpers.RunAppend | spacy_cleaner/processing/helpers.py:38-42 | running a chain `a + b` runs `a`; only if `a` produced no string does it run `b` on the token `a` handed on |
| Helpers.PipeStopsAtFirstString | spacy_cleaner/processing/helpers.py:38-41 | once a prefix of the chain yields a string, that string is the result and no later processor matters |
| Helpers.PipeFirstFiring | spacy_cleaner/processing/helpers.py:38-41 | if every processor before index `k` hands the token on and processor `k` returns a string, the result is that string |
| Helpers.PipeAllPassThrough | spacy_cleaner/processing/helpers.py:38-42 | if every processor hands the token on, the result is the token's text; an empty chain is the identity on the text |
| Helpers.TokenPipe | spacy_cleaner/processing/helpers.py:22-42 | the loop returns the chain's outcome as a string, and the token's text when there are no processors |
| Helpers.PipeAll | spacy_cleaner/processing/helpers.py:58 | one piped string per token, index-aligned with the document |
| Helpers.CleanDoc | spacy_cleaner/processing/helpers.py:45-59 | the cleaned document is trimmed, has no two adjacent whitespace characters, and its visible characters are exactly those of the piped tokens, in document order |
| Helpers.CleanDocAllRemoved | spacy_cleaner/processing/helpers.py:58-59 | a document whose every token pipes to "" cleans to "" |
| Helpers.CleanDocNoProcessors | spacy_cleaner/processing/helpers.py:58-59 | with no processors, a document cleans to the normalised join of its token texts |
| Helpers.SubJoinTail | spacy_cleaner/processing/helpers.py:58-59 | the rewrite of a space-separated list of words and empty strings keeps each word after a single space and leaves at most one space at the end |
| Helpers.JoinWordsNormalised | spacy_cleaner/processing/helpers.py:58-59 | normalising the single-space join of words and empty strings gives the single-space join of the words alone |
| Helpers.CleanDocOfWords | spacy_cleaner/processing/helpers.py:45-59 | when every token pipes to a word or to "", the cleaned document is exactly the non-empty pieces joined by single spaces: removed tokens leave no gap |
| Cleaners.Clean | spacy_cleaner/cleaners.py:95-109 | one result per document, in order, each the `clean_doc` of its document and in whitespace normal form |
| Cleaners.CleanAppend | spacy_cleaner/cleaners.py:95-109 | cleaning a concatenated batch concatenates the results |
| CleaningPipeline.Clean | spacy_cleaner/cleaning/pipeline.py:83-97 | one result per document, in order, each the `clean_doc` of its document |
| CleaningPipeline.AgreesWithCleaner | spacy_cleaner/cleaning/pipeline.py:43-97 | `Pipeline` and the earlier `Cleaner` built from the same processors agree on every batch |
| CleaningPipeline.CleanWithoutProcessors | spacy_cleaner/cleaning/pipeline.py:83-97 | with no processors, each result is the normalised join of its document's token texts |
| TokenFilter.KeptStep | spacy_cleaner/cleaning/cleaner.py:138-144 | one more token of the document grows the kept list by that token's text or lemma exactly when it is allowed |
| TokenFilter.KeptAppend | spacy_cleaner/cleaning/cleaner.py:137-144 | the kept tokens of `a + b` are those of `a` followed by those of `b`: document order is preserved |
| TokenFilter.KeptFromAllowed | spacy_cleaner/cleaning/cleaner.py:137-144 | every kept string is the text or lemma of an allowed token of the document |
| TokenFilter.KeptEverything | spacy_cleaner/cleaning/cleaner.py:137-144 | when every token is allowed, every token is emitted, in order |
| TokenFilter.CleanTokens | spacy_cleaner/cleaning/cleaner.py:137-145 | the loop returns the lowercased single-space join of the allowed tokens' texts or lemmas, and no ASCII capital survives |
| CleaningCleaner.NewCleaner | spacy_cleaner/cleaning/cleaner.py:70-100 | warns exactly when a POS list is given without a `tagger`; fails with `SpacyCleanerMisconfigurationError` exactly when lemmatising without a `lemmatizer`; otherwise stores the options unchanged |
| CleaningCleaner.AllowedToken | spacy_cleaner/cleaning/cleaner.py:158-173 | a token is rejected exactly when its tag is in the POS list, an enabled filter matches its flag, or its text is blank (both directions) |
| CleaningCleaner.CleanDoc | spacy_cleaner/cleaning/cleaner.py:126-145 | `_clean_doc` is the shared loop over this cleaner's filter; no ASCII capital in the result |
| CleaningCleaner.Clean | spacy_cleaner/cleaning/cleaner.py:117-124 | one cleaned result per document, in input order |
| CleaningCleaner.StricterAllowsLess | spacy_cleaner/cleaning/cleaner.py:158-173 | enabling more filters or listing more tags never lets through a token that was rejected before |
| CleanersCleaner.NewCleaner | spacy_cleaner/cleaners/cleaner.py:29-60 | the same warning and error conditions as the later cleaner; otherwise the options are stored unchanged |
| CleanersCleaner.AllowedToken | spacy_cleaner/cleaners/cleaner.py:113-128 | as written: once any POS list is given, every tagged token is rejected; otherwise the flag filters and the blank test decide (both directions) |
| CleanersCleaner.CleanDoc | spacy_cleaner/cleaners/cleaner.py:83-101 | `_clean_doc` is the shared loop over this cleaner's filter; no ASCII capital in the result |
| CleanersCleaner.Clean | spacy_cleaner/cleaners/cleaner.py:74-81 | one cleaned result per document, in input order |
| Cleaner.NewSpacyCleaner | spacy_cleaner/cleaner.py:79-100 | fails with `ValueError` exactly when extra stopwords are given without stopword removal; with extra stopwords, the stopword set is the default set plus the extras |
| Cleaner.IsStop | spacy_cleaner/cleaner.py:93-100 | once extra stopwords are installed, a token is a stopword exactly when its lowercased text is in the new set; otherwise the annotator's flag stands |
| Cleaner.TokenIn | spacy_cleaner/cleaner.py:152 | `tok in tags` holds exactly when some listed element compares equal to the token |
| Cleaner.CleanPipe | spacy_cleaner/cleaner.py:140-178 | the loop's `continue` chain keeps exactly the tokens `Skipped` does not reject; the result is their lowercased single-space join, with no ASCII capital |
| Cleaner.Clean | spacy_cleaner/cleaner.py:102-117 | one cleaned result per document, in input order |
| Cleaner.ExtraStopwordsExtendDefault | spacy_cleaner/cleaner.py:89-100 | with stopword removal on, extra stopwords are accepted, and a token is a stopword exactly when its lowercased text is a default stopword or an extra one |
| Cleaner.PosFilterNeverFires | spacy_cleaner/cleaner.py:152 | as written, with a token never equal to a string, the POS test never skips a token |
| Cleaner.PosFilterByTag | spacy_cleaner/cleaner.py:152 | comparing the tag instead, a tagged token is skipped by the POS test exactly when its tag is listed |
| Cleaner.SkippedAgreesWithAllowedToken | spacy_cleaner/cleaner.py:152-171 | with the tag compared and no extra stopwords, `Skipped` (the `continue` chain, whose first test is `PosSkip`) skips a tagged token exactly when the later `cleaning` cleaner's `_allowed_token` rejects it |
| ChainExamples.StopwordThenLemma | tests/processing/test_helpers.py:24-35 | `token_pipe(tok, remove_stopword_token, mutate_lemma_token)` is "" for a stopword and the lemma otherwise |
| ChainExamples.StopwordAlone | tests/processing/test_helpers.py:37-47 | `token_pipe(tok, remove_stopword_token)` is "" for a stopword and the token's own text otherwise |
| ChainExamples.MultiWhitespaceExample | tests/processing/test_helpers.py:15-18 | `replace_multi_whitespace("   this  is a    test!")` is "this is a test!" |
| FilterExamples.PosListIgnored | spacy_cleaner/cleaners/cleaner.py:113-114 | with `remove_pos=["NOUN"]`, the `cleaners` cleaner rejects a verb, and the `cleaning` cleaner keeps it |
| FilterExamples.CleaningRemoveNumbersExample | tests/cleaning/test_cleaner.py:38-46 | `Cleaner(model, remove_numbers=True)` cleans "Annie is travelling to London at 9 AM" to "annie travelling london" |
| FilterExamples.VerbAuxAsWritten | spacy_cleaner/cleaner.py:152 | as written, `SpacyCleaner(remove_numbers=True, remove_pos=["VERB", "AUX"], lemmatize=True)` cleans the sentence to "annie travel london" |
| FilterExamples.VerbAuxCorrected | tests/test_cleaner.py:68-77 | with the tag compared, the same cleaner gives "annie london", as the test expects |
| DocExamples.StopPunctLemmaPipe | tests/test_pipeline.py:14-19 | through `remove_stopword_token, replace_punctuation_token, mutate_lemma_token`, a stopword becomes "", punctuation `_IS_PUNCT_`, and any other token its lemma |
| DocExamples.AnnieCleaned | tests/test_pipeline.py:12-28 | that rule-chain cleaner turns "Annie is travelling to London at 9 AM" into "Annie travel London 9" |

## Left out

- `SpacyCleaner.vectorise` (`cleaner.py`) concatenates spaCy's document vectors with NumPy. It is floating-point data from the model, so it is not modelled.
- spaCy itself is not modelled: parsing the texts, `model.pipe` and its keyword arguments (`as_tuples`, `batch_size`, `disable`, `component_cfg`, `n_process`, `**kwargs`), the lemmatizer, the tagger and the flag detectors. Their results are the fields of `Token`, and `clean` takes the parsed documents.
- The `tqdm` progress bar is not modelled.
- `warnings.warn` is modelled as the `Built.warned` flag. It is set, as in the source, even when the constructor then fails.
- `SpacyCleaner`'s constructor installs its stopword set with `vocab.add_flag`, which changes the shared vocabulary of the model object. The model gives the cleaner its own stopword set (`Cleaner.IsStop`). The effect on other users of the same model object is not captured. spaCy's default English stopword list is a parameter.
- Helpers.ReplaceMultiWhitespace: backslash escapes and group references in a user-supplied `replace` string are not interpreted. `replace` is inserted literally, which is what `re.sub` does for strings without backslashes.
- Text.Lower: `str.lower()` is modelled on ASCII letters only. Other characters are left as they are.
- Cleaner.PosFilterNeverFires: assumes that spaCy's comparison of a token with a string is false. If it raises `TypeError` instead, `SpacyCleaner` with a POS list fails on the first token rather than keeping it; that failure is not represented.
- Cleaners.Clean, CleaningPipeline.Clean, CleaningCleaner.Clean, CleanersCleaner.Clean, Cleaner.Clean: modelled on sized inputs only (a sequence of parsed documents). Each source `clean` evaluates `len(texts)` for the progress bar before cleaning, so an iterable without a length, such as a generator, raises `TypeError` there; the model does not represent that failure.
- The `model` field that every cleaner stores is left out, because it is only used through `model.pipe` and `pipe_names`. `pipe_names` is a parameter of the constructors.
- The `kwargs` that the `cleaners` `Cleaner` stores and never reads are left out.
- Mutators.MutateLemmaToken has no contract of its own. It returns the lemma as a string, and `Mutators.LemmaEndsChain` states what that means for a chain.
- The package re-exports (`__init__.py`), the command-line entry point (`__main__.py`), `utils/helpers.py` and the documentation configuration are not part of this model.
- `Evaluator` and `BaseProcessor` as protocols and abstract base classes are folded into the `Evaluator` datatype (`CustomEvaluator` for any other implementation) and the `evaluator` field of `Processor`.

## Findings

| source | as written | input that shows it | evidently intended | confidence | as-written member | corrected member |
|---|---|---|---|---|---|---|
| spacy_cleaner/cleaner.py:152 | `tok in self.remove_pos` compares the token object with each listed string, and a spaCy token never equals a string, so the POS filter never removes anything | `SpacyCleaner(nlp, remove_numbers=True, remove_pos=["VERB", "AUX"], lemmatize=True)` on "Annie is travelling to London at 9 AM" gives "annie travel london" | test the tag, `tok.pos_ in self.remove_pos`, giving "annie london" as tests/test_cleaner.py:77 expects | not executed; assumes spaCy's token comparison with a string is false rather than an error | FilterExamples.VerbAuxAsWritten | FilterExamples.VerbAuxCorrected |
| spacy_cleaner/cleaners/cleaner.py:113 | `isinstance(self.remove_pos, List) and tok.pos_` ignores what the list holds: any list, even `[]` or `["NOUN"]`, removes every tagged token | `remove_pos=["NOUN"]` and a token tagged `VERB` is removed | remove only tokens whose tag is listed, as `spacy_cleaner/cleaning/cleaner.py:158` later does | not executed | FilterExamples.PosListIgnored | CleaningCleaner.AllowedToken |
