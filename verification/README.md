# CorBas semantic annotation core, in Dafny

CorBas is a small Flask service for a browser-based corpus tool. It runs text
through spaCy, optionally through the PyMUSAS semantic tagger, and returns one
annotation per token. The service has two near-identical entry points,
`corbas_backend_NOCACHE.py` and `app.py`. This project models the part of
them that is not a library call:

- **The fallback semantic classifier** `get_semantic_fallback`, one version per
  entry point (`BackendFallback`, `AppFallback`). It lower-cases the lemma and
  tests it against fixed word lists in a fixed order, where the first match
  wins. Otherwise a table keyed by the coarse part of speech decides. The
  backend version has five lexical rules. The app version has eight, and
  larger lists.
- **The token loop and response of `/analyze`** (`BackendAnalyze.AnalyzeText`,
  `AppAnalyze.AnalyzeText`).
  - A body without `text` is rejected with status 400.
  - Otherwise every token of the pipeline's output becomes one annotation, in
    order, with every field copied.
  - The semantic code is the tagger's first tag when the tagger is active and
    the token carries a tag list. An empty list gives `Z99`. Otherwise the
    fallback classifier decides.
  - `num_tokens`, `corpus_name` (default `"unnamed"`) and one `has_pymusas`
    flag complete the response.
- **The download name of `/highlight_pdf`** (`Highlight`): the uploaded name
  without its last `.`-suffix, followed by `_highlighted.pdf`.
- **How the two classifiers relate** (`Variants`). Every backend list is
  contained in the app list of the same rule, and the default tables are equal.
  So the two agree on every lemma except those that only the app lists.

Modules: `Wrappers` (an `Option` type), `Text` (the case folding the word lists depend on),
`Annotation` (token, annotation and response records shared by both entry
points), `BackendFallback`, `BackendAnalyze`, `Highlight`, `AppFallback`,
`AppAnalyze`, `Variants`.

The NLP pipeline is the parameter `nlp: string -> seq<RawToken>` of
`AnalyzeText`. Whether the tagger loaded is the parameter `hasPymusas`. A
token's `pymusas_tags` extension attribute is the field
`musasTags: Option<seq<string>>`: `None` when the token lacks the attribute.

Facts about the code that the proofs make precise:

- The backend classifier can return 14 distinct codes and the app classifier 17.
- The app's word lists are not pairwise disjoint. `wonderful` is on both the
  positive-emotion list and the positive-adjective list, so it always gets
  `E1.1+`.
- Both handlers choose the code the same way. When the tagger is active and the
  token carries the attribute, the first tag is used, or `Z99` for an empty
  list. Otherwise the handler's own fallback classifier decides.
- Neither handler checks a token's fields: every field is read directly.
- `semantic` is non-empty unless the tagger itself puts an empty code first.
  `Semantic` states exactly that.

## Model

| member | source | states |
|---|---|---|
| `Text.LowerChar` | corbas_backend_NOCACHE.py:254 | `A`–`Z` become `a`–`z`, the Kelvin sign becomes `k`, every other character is kept, and the result is never a folded character |
| `Text.Lower` | corbas_backend_NOCACHE.py:254 | lower-casing keeps the length, folds each character by `LowerChar`, and leaves no character that folds |
| `Text.LowerIdempotent` | corbas_backend_NOCACHE.py:254 | lower-casing an already lower-cased lemma changes nothing |
| `BackendFallback.PosDefault` | corbas_backend_NOCACHE.py:270-278 | the part-of-speech table always gives one of its nine codes |
| `BackendFallback.Classify` | corbas_backend_NOCACHE.py:252-278 | `get_semantic_fallback`: the word lists in order on the lower-cased lemma, then the table; the code is never empty |
| `BackendFallback.CaseInsensitive` | corbas_backend_NOCACHE.py:252-278 | classification depends only on the lower-cased lemma: `Classify(l, p) == Classify(Lower(l), p)` |
| `BackendFallback.EachListGetsItsCode` | corbas_backend_NOCACHE.py:256-268 | a lemma on the positive-emotion, negative-emotion, movement, speech or thought list gets `E1.1+`, `E1.1-`, `M1`, `Q2.2` or `X2.1`, whatever its case and part of speech |
| `BackendFallback.LexicalRulesIgnorePos` | corbas_backend_NOCACHE.py:256-270 | a lemma on any list gets the same code under every part of speech: lexical rules take priority over the table |
| `BackendFallback.UnlistedGetsPosDefault` | corbas_backend_NOCACHE.py:256-278 | a lemma on no list gets the part-of-speech default |
| `BackendFallback.PosDefaultTable` | corbas_backend_NOCACHE.py:270-278 | NOUN→O2, PROPN→Z3, VERB→A3+, ADJ→A5, ADV→A13, NUM→N1, ADP and DET→Z5, PRON→Z8; every other part of speech, and only those, gets Z99 |
| `BackendFallback.ClassifyCodomain` | corbas_backend_NOCACHE.py:256-278 | the classifier returns a code from a fixed set of 14; the code is lexical exactly when the lower-cased lemma is on a list |
| `BackendFallback.LexicalCodesReachable` | corbas_backend_NOCACHE.py:256-268 | each of the five lexical codes is returned for a witness lemma under every part of speech |
| `BackendFallback.PosCodesReachable` | corbas_backend_NOCACHE.py:270-278 | each of the nine table codes is returned for an unlisted lemma |
| `BackendFallback.WordListsDisjoint` | corbas_backend_NOCACHE.py:256-267 | the five word lists are pairwise disjoint |
| `BackendFallback.Examples` | corbas_backend_NOCACHE.py:254-278 | `run`/NOUN gives M1, `say`/ADJ gives Q2.2, `Happy`/ADJ gives E1.1+, `xyzzy`/NOUN gives O2, `xyzzy`/PUNCT gives Z99 |
| `BackendFallback.KelvinSignExample` | corbas_backend_NOCACHE.py:254-268 | the lemma U+212A followed by `now` (Kelvin sign, `now`) under VERB is folded to `know` and gets X2.1 |
| `Annotation.TopTag` | corbas_backend_NOCACHE.py:160 | the tagger's verdict is the first tag of a non-empty list and `Z99` for an empty one; it never comes from anywhere else |
| `Annotation.CorpusName` | corbas_backend_NOCACHE.py:179 | the corpus name is echoed when present and is `"unnamed"` otherwise |
| `Annotation.Annotate` | corbas_backend_NOCACHE.py:164-174 | an annotation copies word, pos, tag, dep, head, lemma, is_stop and is_punct from the token and carries the chosen code |
| `BackendAnalyze.Semantic` | corbas_backend_NOCACHE.py:159-162 | the chosen code is empty only when the tagger decided and put an empty code first |
| `BackendAnalyze.TaggerPathIgnoresFallback` | corbas_backend_NOCACHE.py:159-160 | with the tagger active and tags present, the code is the first tag or `Z99`, and the lemma and part of speech are never consulted |
| `BackendAnalyze.FallbackPathIgnoresTags` | corbas_backend_NOCACHE.py:159-162 | otherwise the code is the fallback classifier's, and with the tagger inactive any tag list is ignored |
| `BackendAnalyze.AnalyzeText` | corbas_backend_NOCACHE.py:150-181 | rejected with 400 exactly when the body has no `text`; otherwise one annotation per pipeline token in order, fields copied, code as chosen per token, `num_tokens` equal to the length, corpus name with default, and the tagger flag |
| `BackendAnalyze.LoveCatsScenario` | corbas_backend_NOCACHE.py:158-162 | without the tagger, lemmas `I`, `love`, `cats` tagged PRON, VERB, NOUN get Z8, E1.1+, O2 |
| `Highlight.LastDot` | corbas_backend_NOCACHE.py:235 | finds the last `.` of the name, or reports that there is none |
| `Highlight.Stem` | corbas_backend_NOCACHE.py:235 | `rsplit('.', 1)[0]`: a prefix of the name that ends just before its last `.`, or the whole name when it has no `.` |
| `Highlight.HighlightedName` | corbas_backend_NOCACHE.py:235-236 | the output name always ends in `_highlighted.pdf` and begins with a prefix of the uploaded name |
| `Highlight.HighlightedNameDropsLastSuffix` | corbas_backend_NOCACHE.py:235-236 | `stem.ext` with a dot-free `ext` becomes `stem_highlighted.pdf`: only the last suffix is removed |
| `Highlight.HighlightedNameWithoutDot` | corbas_backend_NOCACHE.py:235-236 | a name without a `.` is kept whole |
| `AppFallback.PosDefault` | app.py:165-184 | the part-of-speech table always gives one of its nine codes |
| `AppFallback.Classify` | app.py:128-184 | app.py's `get_semantic_fallback`: eight word lists in order on the lower-cased lemma, then the table; the code is never empty |
| `AppFallback.CaseInsensitive` | app.py:128-184 | classification depends only on the lower-cased lemma |
| `AppFallback.EachListGetsItsCode` | app.py:133-163 | a lemma on each of the eight lists gets that list's code whatever its case and part of speech, except that `wonderful` is not given `A5.1+` |
| `AppFallback.WonderfulOnTwoLists` | app.py:133-157 | the positive-emotion and positive-adjective lists share exactly the word `wonderful` |
| `AppFallback.OnlyOverlapIsWonderful` | app.py:133-161 | apart from `wonderful`, the eight lists are pairwise disjoint |
| `AppFallback.WonderfulIsEmotion` | app.py:133-157 | `wonderful` always gives `E1.1+`, and `A5.1+` is returned exactly for the other positive adjectives |
| `AppFallback.LexicalRulesIgnorePos` | app.py:133-165 | a lemma on any list gets the same code under every part of speech |
| `AppFallback.UnlistedGetsPosDefault` | app.py:133-184 | a lemma on no list gets the part-of-speech default |
| `AppFallback.PosDefaultTable` | app.py:165-184 | the same nine entries, with ADP and DET both Z5; every other part of speech, and only those, gets Z99 |
| `AppFallback.ClassifyCodomain` | app.py:133-184 | the classifier returns a code from a fixed set of 17; the code is lexical exactly when the lower-cased lemma is on a list |
| `AppFallback.LexicalCodesReachable` | app.py:133-163 | each of the eight lexical codes is returned for a witness lemma under every part of speech |
| `AppFallback.PosCodesReachable` | app.py:165-184 | each of the nine table codes is returned for an unlisted lemma |
| `AppFallback.Examples` | app.py:153-184 | `before`/ADP gives T1, `good`/NOUN gives A5.1+, `xyzzy`/DET gives Z5 |
| `AppFallback.CapitalisedExample` | app.py:131-137 | `Wonderful`/ADJ gives E1.1+ |
| `AppAnalyze.Semantic` | app.py:94-98 | the chosen code is empty only when the tagger decided and put an empty code first |
| `AppAnalyze.TaggerPathIgnoresFallback` | app.py:94-96 | with the tagger active and tags present, the code is the first tag or `Z99`, and the fallback is never consulted |
| `AppAnalyze.FallbackPathIgnoresTags` | app.py:94-98 | otherwise the code is app.py's fallback classifier's, and with the tagger inactive any tag list is ignored |
| `AppAnalyze.AnalyzeText` | app.py:78-119 | rejected with 400 exactly when the body has no `text`; otherwise one annotation per pipeline token in order, fields copied, `num_tokens` equal to the length, corpus name echoed with default, one `has_pymusas` flag for the whole response |
| `Variants.WordListsNested` | app.py:133-151 | each backend word list is a subset of the app list of the same rule |
| `Variants.ListDifferences` | app.py:133-151 | the app adds `depressed`, `enter`, `mention` and `remember` to four lists and nothing to the positive-emotion list |
| `Variants.PosDefaultsAgree` | app.py:165-184 | the two default tables give the same code for every part of speech |
| `Variants.BackendRuleAgrees` | app.py:133-151 | whenever the backend matches a lexical rule, the app classifier returns the same code |
| `Variants.UnlistedAgrees` | app.py:133-184 | a lemma on none of the app lists gets the same table default from both classifiers |
| `Variants.DisagreeExactlyOnAppOnlyWords` | app.py:133-184 | the classifiers disagree exactly on lemmas that are on some app list and on no backend list |
| `Variants.AppOnlyWords` | app.py:133-163 | those lemmas are `depressed`, `enter`, `mention`, `remember` and the adjective and time words other than `wonderful` |
| `Variants.SemanticsAgree` | app.py:94-98 | the two handlers choose the same code whenever the tagger decides, and otherwise exactly when the lemma is not an app-only word |

## Left out

- HTTP plumbing: Flask routing, CORS, cache headers, and the `/`, `/service-worker.js`, `/manifest.json` and `/health` routes, with the HTML URL substitution. These are I/O rather than logic.
- The `OPTIONS` short-circuit and the mapping of any exception to status 500. With it go the failures of the pipeline itself, such as a non-string `text`.
- spaCy tokenisation, lemmatisation and parsing, and the PyMUSAS tagger and its start-up. They are foreign libraries. Their output is the `nlp` parameter, and the tagger's availability is the `hasPymusas` parameter.
- PyMuPDF search, highlighting and saving in `/highlight_pdf`, and its `PyMuPDF not installed`, `No file uploaded` and `No phrases provided` checks. They are foreign calls and byte I/O. Only the output-name derivation is modelled.
- `hex_to_rgb`: it divides by 255 into floating point, and Python's `int(…, 16)` accepts signs and whitespace in ways not worth modelling for a colour string.
- `print` and traceback output.
- `Text.LowerChar`, `Text.Lower`: fold only `A`–`Z` and the Kelvin sign, the characters whose lower-case form under Python's `str.lower()` is ASCII. Python also folds every other cased letter, to forms that are not ASCII. Every listed word is ASCII, so the classifiers' codes are unaffected, but the lowered string itself can differ.
- `BackendAnalyze.AnalyzeText`: the request body is JSON `null` or a JSON object with string values. Other JSON bodies are not represented. Falsy ones (`[]`, `""`, `0`, `false`) get a 400. A non-empty string or list gets a 400 unless it contains `text`, as a substring or as an element, and then indexing fails with a 500. A non-zero number or `true` fails inside `in`, which gives a 500. Non-string or null values of `corpus_name` are not represented either.
- `BackendAnalyze.AnalyzeText`: a body that does not parse as JSON is not represented. If it is sent as JSON, the empty body included, `get_json()` raises in every Flask version and the handler answers 500. If its content type is not JSON, Flask before 2.1 gives `None`, which gets a 400 and is the model's `None`. From 2.1 on, Flask raises and the handler answers 500.
- `AppAnalyze.AnalyzeText`: the same two restrictions on the request body.
- `Highlight.HighlightedName`: a missing upload file name (`None` in Flask) is not represented.
