# Recipe preference scorer: a Dafny model

This project models the preference-matching scorer of the AI-powered recipe
recommender (`UserPreferenceAnalyzer.analyze_preferences`, written as the
`analyzed_data` list comprehension in `main.py`). For every scraped recipe the
scorer builds a record. The record copies `title`, `ingredients`,
`instructions` and `rating`, and adds an integer `match_score`. That score is
the sum of three terms:

- the number of cuisine-preference tokens found in the lower-cased title;
- the number of (dietary restriction, ingredient line) pairs whose token is
  found in the lower-cased line;
- the number of (ingredient preference, ingredient line) pairs under the same
  rule.

"Found" is Python's `token in text`: unanchored substring containment, where
the empty token is found in every string.

Files and modules:

- `text.dfy`, module `Text`: ASCII lower-casing (`LowerChar`, `Lower`),
  substring containment (`Contains`, with the reference definition `OccursAt`)
  and the search loop `Find`.
- `counting.dfy`, module `Counting`: Python's `sum` over a generator (`Sum`,
  accumulated left to right) and `sum(1 for x in s if p(x))` (`Count`), with
  concatenation, permutation, bound and index-set lemmas.
- `scorer.dfy`, module `Scorer`: the `Recipe`, `Preferences` and
  `ScoredRecipe` records, the three terms, `MatchScore`, `Score`, `Analyze`,
  and the loop form of the same computation (`CuisineLoop`, `PairLoop`,
  `ScoreWithLoops`, `AnalyzeWithLoops`).
- `scorer_lemmas.dfy`, module `ScorerLemmas`: what each term counts, bounds,
  permutation invariance, monotonicity, the empty and upper-case token edge
  cases, and a worked example.

Where the system's design description and the code fragment differ, the model
follows the fragment:

- The design description ranks the scored list by score and rating. The
  fragment at main.py:31-43 builds the records in input order. What the
  method does with them afterwards is not in main.py. `Analyze` keeps input
  order.
- The design description calls the preference collections sets, so each
  distinct cuisine token would count at most once. Their type is not shown in
  main.py. The model takes each preference collection as a sequence: if it is
  a list, a duplicate counts once per occurrence (`AddCuisineToken`).
- The design description calls the preference tokens lower-cased and the
  matching case-insensitive. The fragment lower-cases only the recipe side, so
  a token with an upper-case letter never matches
  (`UpperCaseTokenNeverMatches`).

The loop methods (`CuisineLoop`, `PairLoop`, `ScoreWithLoops`,
`AnalyzeWithLoops`) are a for-loop form of the same computation, proved equal
to the comprehension. main.py:27 and main.py:30 mention for-loops that the
comprehension replaced, but those loops are not in main.py.

## Model

| member | source | states |
|---|---|---|
| Text.LowerChar | main.py:37-40 | lower-casing one character maps an upper-case ASCII letter to the lower-case letter at the same alphabet position, leaves every other character alone, and never yields an upper-case letter |
| Text.Lower | main.py:37-40 | `.lower()` keeps the length, lowers each character in place, leaves no upper-case letter, and returns its input unchanged exactly when the input has no upper-case letter |
| Text.LowerIdempotent | main.py:37-40 | lower-casing an already lower-cased string changes nothing |
| Text.LowerConcat | main.py:37-40 | lower-casing a concatenation is the concatenation of the lower-cased parts |
| Text.Contains | main.py:37-40 | Python's `token in text`: a contained token is never longer than the text, and the empty token is in every string |
| Text.ContainsIffOccurs | main.py:37-40 | `token in text` holds exactly when some slice of the text equals the token |
| Text.EmptyNeedleContained | main.py:37-40 | the empty token is in every string |
| Text.ContainedInNoUpper | main.py:37-40 | a string without upper-case letters contains only tokens without upper-case letters |
| Text.UpperNeedleNotInLower | main.py:37-40 | a token with an upper-case letter is never in a lower-cased string |
| Text.LowerOnlyContainsNoUpper | main.py:37-40 | whatever a lower-cased string contains has no upper-case letter |
| Text.Find | main.py:37-40 | the search loop behind `in` answers true exactly when the token is contained in the text |
| Counting.Sum | main.py:37-40 | `sum(f(x) for x in s)` accumulated left to right: every element's weight is at most the total |
| Counting.Count | main.py:37-40 | `sum(1 for x in s if p(x))` is at most the length, and at least 1 when some element passes the filter |
| Counting.SumAppend | main.py:37-40 | appending an element to a generator adds its weight to the `sum` |
| Counting.SumConcat | main.py:37-40 | the `sum` over a concatenation is the sum of the two sums |
| Counting.SumPermutation | main.py:37-40 | reordering the elements does not change the `sum` |
| Counting.SumCongruent | main.py:37-40 | weights that agree on every element give the same `sum` |
| Counting.SumBound | main.py:37-40 | if every weight is at most m, the `sum` is at most m times the length |
| Counting.SumZeroIff | main.py:37-40 | the `sum` is zero exactly when every weight is zero |
| Counting.CountAppend | main.py:37-40 | appending an element adds one to `sum(1 for x in s if p(x))` when it passes the filter, and nothing otherwise |
| Counting.CountBound | main.py:37-40 | the filtered count is at most the length |
| Counting.CountPermutation | main.py:37-40 | reordering the elements does not change the filtered count |
| Counting.CountIsHits | main.py:37-40 | the filtered count is the number of positions whose element passes the filter |
| Counting.CountAllIff | main.py:37-40 | the filtered count equals the length exactly when every element passes |
| Counting.CountZeroIff | main.py:37-40 | the filtered count is zero exactly when no element passes |
| Scorer.Matches | main.py:37-40 | `token in text.lower()`: a matching token is never longer than the text and has no upper-case letter, and the empty token matches every text |
| Scorer.CuisineTerm | main.py:37 | the cuisine term is at most the number of cuisine entries, and at least 1 when some entry is in the lower-cased title |
| Scorer.LineCount | main.py:38-40 | one token contributes at most one per ingredient line, and at least 1 when some line contains it |
| Scorer.PairTerm | main.py:38-40 | a dietary or ingredient term is at most tokens times lines, and at least any single token's line count |
| Scorer.MatchScore | main.py:37-40 | `match_score` is never negative, and it is 0 when all three preference lists are empty |
| Scorer.Score | main.py:32-41 | the record built for a recipe carries its title, ingredients, instructions and rating unchanged, and a non-negative score |
| Scorer.Analyze | main.py:31-43 | `analyzed_data` has exactly one record per recipe, in the order of `recipe_data`; record i is the scored copy of recipe i, and stripping the scores gives back `recipe_data` |
| Scorer.CuisineLoop | main.py:37 | a for-loop form that tests each cuisine token against the lower-cased title computes the cuisine term |
| Scorer.PairLoop | main.py:38-40 | two nested loops, tokens outside and ingredient lines inside, adding one per matching pair, compute a dietary or ingredient term |
| Scorer.ScoreWithLoops | main.py:32-41 | a record built by loops instead of generator expressions equals the record the comprehension builds |
| Scorer.AnalyzeWithLoops | main.py:31-43 | a for-loop form of the same computation builds the same list of records as the comprehension, in the same order |
| ScorerLemmas.CuisineTermCountsEntries | main.py:37 | the cuisine term is the number of cuisine entries found in the lower-cased title, so each entry adds one or nothing and the term is at most the number of entries |
| ScorerLemmas.LineCountCountsLines | main.py:38-40 | a restriction or preference token contributes the number of ingredient lines it is found in, at most one per line |
| ScorerLemmas.RowHitsSize | main.py:38-40 | the matching pairs of one token number exactly the lines it is found in |
| ScorerLemmas.PairTermCountsPairs | main.py:38-40 | the dietary and ingredient terms are the size of the full cross product of tokens and ingredient lines, filtered by the substring rule |
| ScorerLemmas.PairHitsSplit | main.py:38-40 | the matching pairs split into those of the earlier tokens and those of the last token, with no pair in both |
| ScorerLemmas.PairTermBound | main.py:38-40 | a cross-product term is at most tokens times lines, and 0 when the recipe has no ingredient lines |
| ScorerLemmas.MatchScoreCountsHits | main.py:37-40 | `match_score` is the number of matching cuisine entries plus the matching pairs of both cross products |
| ScorerLemmas.MatchScoreBound | main.py:37-40 | `match_score` is at most the cuisine count plus both preference counts times the ingredient count; with no ingredient lines only the title counts |
| ScorerLemmas.PairTermLinesPermutation | main.py:38-40 | reordering the ingredient lines does not change a cross-product term |
| ScorerLemmas.PreferencePermutationKeepsScore | main.py:37-40 | reordering any of the three preference lists leaves `match_score` unchanged |
| ScorerLemmas.IngredientPermutationKeepsScore | main.py:38-40 | reordering a recipe's ingredient lines leaves `match_score` unchanged |
| ScorerLemmas.AddCuisineToken | main.py:37 | appending a cuisine token adds exactly 1 if it is in the lower-cased title and 0 otherwise |
| ScorerLemmas.AddDietaryToken | main.py:38 | appending a dietary restriction adds the number of ingredient lines it is found in |
| ScorerLemmas.AddIngredientToken | main.py:39-40 | appending an ingredient preference adds the number of ingredient lines it is found in |
| ScorerLemmas.AddTokenNeverLowersScore | main.py:37-40 | appending one token to any preference list never decreases `match_score` |
| ScorerLemmas.EmptyTokenMatchesEverything | main.py:37-40 | an empty cuisine token adds 1, and an empty restriction or preference adds one per ingredient line |
| ScorerLemmas.UpperCaseTokenNeverMatches | main.py:37-40 | a token with an upper-case ASCII letter never matches, so appending it to any list leaves the score unchanged |
| ScorerLemmas.MatchesAt | main.py:37-40 | helper of the worked example: a token that occurs at some position of a string without upper-case letters matches it |
| ScorerLemmas.NoMatchWithoutLetter | main.py:37-40 | helper of the worked example: a token with a letter absent from a string without upper-case letters does not match it |
| ScorerLemmas.OneOfTwoLines | main.py:38-40 | helper of the worked example: a single token found in exactly one of two ingredient lines contributes 1 |
| ScorerLemmas.FragmentMatchExample | main.py:37-40 | "italian" in "Italian Pasta", restriction "nut" inside "peanut butter" and preference "basil" in "basil leaves" give a score of 3: a fragment of a longer word counts |

## Left out

- HTTP session and requests (main.py:7-8, main.py:13-22): network I/O, and the bodies are elided in the file.
- TF-IDF vectoriser, matrix and `get_similar_recipes` (main.py:50-52, main.py:57-59): calls into scikit-learn, which is not part of this model, plus floating-point cosine similarity; the fragment is incomplete.
- The scrape comprehension (main.py:68-71): a map over the network scraper.
- The prose around the code fragments (main.py:1-4, 27, 46, 64, 74): commentary, not code. Line 27 mentions for-loops that the comprehension replaced. Those loops are not in main.py, and the loop methods here are a reconstruction proved equal to the comprehension.
- The rating: a Python float that the scorer only copies. It is kept as an uninterpreted `real` and no arithmetic is done on it.
- Text.Lower: models `str.lower()` on ASCII only. Python also lower-cases non-ASCII letters (for example 'É'), and the model leaves them unchanged.
- Text.Find: a naive left-to-right search. CPython uses a different search algorithm for `in`, with the same yes/no answer, and its cost is not modelled.
- Missing dictionary keys: the source raises `KeyError` when a recipe or the preference dictionary lacks a key. The records here always have every field, so that error path is not modelled.
- Non-string values: the source assumes `title` and each ingredient line are strings with `.lower()`. Other types are not modelled.
