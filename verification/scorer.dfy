/**
 The preference-matching scorer of `UserPreferenceAnalyzer.analyze_preferences`:
 every recipe is copied into a record that also carries an integer
 `match_score`, the number of cuisine tokens found in the lower-cased title plus
 the number of (dietary restriction, ingredient line) and (ingredient
 preference, ingredient line) pairs whose token is found in the lower-cased
 line.
 */
module Scorer {
  import opened Text
  import opened Counting

  /** A scraped recipe. The rating is a floating-point value that the scorer
      only copies, so it is kept as an uninterpreted `real`. */
  datatype Recipe = Recipe(
    title: string,
    ingredients: seq<string>,
    instructions: seq<string>,
    rating: real)

  /** The `preference_data` dictionary: three token collections, taken as
      sequences (a duplicate is kept, case is kept as given). */
  datatype Preferences = Preferences(
    cuisinePreferences: seq<string>,
    dietaryRestrictions: seq<string>,
    ingredientPreferences: seq<string>)

  /** One element of `analyzed_data`: the recipe's four fields plus its score. */
  datatype ScoredRecipe = ScoredRecipe(
    title: string,
    ingredients: seq<string>,
    instructions: seq<string>,
    rating: real,
    matchScore: int)

  /** The recipe a scored record was copied from. */
  function Unscored(s: ScoredRecipe): Recipe {
    Recipe(s.title, s.ingredients, s.instructions, s.rating)
  }

  /** `token in text.lower()`: only the recipe side is lower-cased, so a
      matching token is never longer than the text and has no upper-case
      letter, and the empty token matches everything. */
  predicate Matches(token: string, text: string)
    ensures Matches(token, text) ==> |token| <= |text| && HasNoUpper(token)
    ensures token == [] ==> Matches(token, text)
  {
    LowerOnlyContainsNoUpper(token, text);
    Contains(token, Lower(text))
  }

  /** The filter of the cuisine generator: cuisine tokens found in `title`. */
  function TitleMatcher(title: string): string -> bool {
    cuisine => Matches(cuisine, title)
  }

  /** The filter of the inner ingredient generator: lines containing `token`. */
  function LineMatcher(token: string): string -> bool {
    line => Matches(token, line)
  }

  /** Cuisine term: `sum(1 for cuisine in cuisines if cuisine in title.lower())`. */
  function CuisineTerm(cuisines: seq<string>, title: string): (n: nat)
    ensures n <= |cuisines|
    ensures (exists i :: 0 <= i < |cuisines| && Matches(cuisines[i], title)) ==> n >= 1
  {
    Count(cuisines, TitleMatcher(title))
  }

  /** The ingredient lines one token is found in. */
  function LineCount(token: string, lines: seq<string>): (n: nat)
    ensures n <= |lines|
    ensures (exists j :: 0 <= j < |lines| && Matches(token, lines[j])) ==> n >= 1
  {
    Count(lines, LineMatcher(token))
  }

  function LineCounter(lines: seq<string>): string -> nat {
    token => LineCount(token, lines)
  }

  /** Dietary and ingredient terms: `sum(1 for token in tokens for line in lines
      if token in line.lower())`, tokens in the outer loop. */
  function PairTerm(tokens: seq<string>, lines: seq<string>): (n: nat)
    ensures n <= |tokens| * |lines|
    ensures forall i :: 0 <= i < |tokens| ==> LineCount(tokens[i], lines) <= n
  {
    SumBound(tokens, LineCounter(lines), |lines|);
    Sum(tokens, LineCounter(lines))
  }

  /** `match_score` of one recipe. */
  function MatchScore(prefs: Preferences, recipe: Recipe): (score: int)
    ensures score >= 0
    ensures (prefs.cuisinePreferences == [] && prefs.dietaryRestrictions == []
             && prefs.ingredientPreferences == []) ==> score == 0
  {
    CuisineTerm(prefs.cuisinePreferences, recipe.title)
    + PairTerm(prefs.dietaryRestrictions, recipe.ingredients)
    + PairTerm(prefs.ingredientPreferences, recipe.ingredients)
  }

  /** The dictionary built for one recipe. */
  function Score(prefs: Preferences, recipe: Recipe): (scored: ScoredRecipe)
    ensures Unscored(scored) == recipe
    ensures scored.matchScore >= 0
  {
    ScoredRecipe(recipe.title, recipe.ingredients, recipe.instructions, recipe.rating,
                 MatchScore(prefs, recipe))
  }

  /** The recipes a list of scored records was copied from. */
  function UnscoredAll(scored: seq<ScoredRecipe>): seq<Recipe> {
    seq(|scored|, i requires 0 <= i < |scored| => Unscored(scored[i]))
  }

  /** `analyzed_data`: the comprehension over `recipe_data`, one record per
      recipe in input order. */
  function Analyze(prefs: Preferences, recipes: seq<Recipe>): (analyzed: seq<ScoredRecipe>)
    ensures |analyzed| == |recipes|
    ensures forall i :: 0 <= i < |recipes| ==> analyzed[i] == Score(prefs, recipes[i])
    ensures UnscoredAll(analyzed) == recipes
  {
    if recipes == [] then []
    else Analyze(prefs, recipes[..|recipes| - 1]) + [Score(prefs, recipes[|recipes| - 1])]
  }

  /** The cuisine term computed by a loop that tests each token in turn. */
  method CuisineLoop(cuisines: seq<string>, title: string) returns (n: nat)
    ensures n == CuisineTerm(cuisines, title)
  {
    var lowered := Lower(title);
    n := 0;
    var i := 0;
    while i < |cuisines|
      invariant 0 <= i <= |cuisines|
      invariant n == CuisineTerm(cuisines[..i], title)
    {
      var hit := Find(cuisines[i], lowered);
      assert cuisines[..i + 1] == cuisines[..i] + [cuisines[i]];
      CountAppend(cuisines[..i], cuisines[i], TitleMatcher(title));
      if hit {
        n := n + 1;
      }
      i := i + 1;
    }
    assert cuisines[..i] == cuisines;
  }

  /** A pair term computed by two nested loops, tokens outside and lines
      inside, adding one per matching pair. */
  method PairLoop(tokens: seq<string>, lines: seq<string>) returns (n: nat)
    ensures n == PairTerm(tokens, lines)
  {
    n := 0;
    var i := 0;
    while i < |tokens|
      invariant 0 <= i <= |tokens|
      invariant n == PairTerm(tokens[..i], lines)
    {
      var token := tokens[i];
      var j := 0;
      var row := 0;
      while j < |lines|
        invariant 0 <= j <= |lines|
        invariant row == LineCount(token, lines[..j])
      {
        var hit := Find(token, Lower(lines[j]));
        assert lines[..j + 1] == lines[..j] + [lines[j]];
        CountAppend(lines[..j], lines[j], LineMatcher(token));
        if hit {
          row := row + 1;
        }
        j := j + 1;
      }
      assert lines[..j] == lines;
      assert tokens[..i + 1] == tokens[..i] + [token];
      SumAppend(tokens[..i], token, LineCounter(lines));
      n := n + row;
      i := i + 1;
    }
    assert tokens[..i] == tokens;
  }

  /** One record computed by loops instead of generator expressions. */
  method ScoreWithLoops(prefs: Preferences, recipe: Recipe) returns (scored: ScoredRecipe)
    ensures scored == Score(prefs, recipe)
  {
    var cuisine := CuisineLoop(prefs.cuisinePreferences, recipe.title);
    var dietary := PairLoop(prefs.dietaryRestrictions, recipe.ingredients);
    var preferred := PairLoop(prefs.ingredientPreferences, recipe.ingredients);
    scored := ScoredRecipe(recipe.title, recipe.ingredients, recipe.instructions,
                           recipe.rating, cuisine + dietary + preferred);
  }

  /** A for-loop form of the same computation: it builds the same records in
      the same order as the comprehension. */
  method AnalyzeWithLoops(prefs: Preferences, recipes: seq<Recipe>)
    returns (analyzed: seq<ScoredRecipe>)
    ensures analyzed == Analyze(prefs, recipes)
  {
    analyzed := [];
    var k := 0;
    while k < |recipes|
      invariant 0 <= k <= |recipes|
      invariant analyzed == Analyze(prefs, recipes[..k])
    {
      var scored := ScoreWithLoops(prefs, recipes[k]);
      assert recipes[..k + 1][..k] == recipes[..k];
      analyzed := analyzed + [scored];
      k := k + 1;
    }
    assert recipes[..k] == recipes;
  }
}
