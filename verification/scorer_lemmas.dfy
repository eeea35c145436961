/**
 Properties of `match_score`: what each term counts, that reordering any list
 leaves the score alone, that adding a token never lowers it, and how the
 empty and the upper-case token behave.
 */
module ScorerLemmas {
  import opened Text
  import opened Counting
  import opened Scorer

  /** Positions of the cuisine tokens found in the lower-cased title. */
  ghost function CuisineHits(cuisines: seq<string>, title: string): set<int> {
    set i | 0 <= i < |cuisines| && Matches(cuisines[i], title)
  }

  /** Positions of the ingredient lines that contain `token`. */
  ghost function LineHits(token: string, lines: seq<string>): set<int> {
    set j | 0 <= j < |lines| && Matches(token, lines[j])
  }

  /** The matching (token position, line position) pairs of row `i`. */
  ghost function RowHits(i: int, token: string, lines: seq<string>): set<(int, int)> {
    set j | 0 <= j < |lines| && Matches(token, lines[j]) :: (i, j)
  }

  /** All matching (token position, line position) pairs: the cross product
      filtered by the substring rule. */
  ghost function PairHits(tokens: seq<string>, lines: seq<string>): set<(int, int)> {
    set i, j | 0 <= i < |tokens| && 0 <= j < |lines| && Matches(tokens[i], lines[j]) :: (i, j)
  }

  /** The cuisine term is the number of cuisine entries found in the title:
      each entry adds one or nothing. */
  lemma CuisineTermCountsEntries(cuisines: seq<string>, title: string)
    ensures CuisineTerm(cuisines, title) == |CuisineHits(cuisines, title)|
    ensures CuisineTerm(cuisines, title) <= |cuisines|
  {
    CountIsHits(cuisines, TitleMatcher(title));
    assert Hits(cuisines, TitleMatcher(title)) == CuisineHits(cuisines, title);
    CountBound(cuisines, TitleMatcher(title));
  }

  /** A token adds one per ingredient line it is found in. */
  lemma LineCountCountsLines(token: string, lines: seq<string>)
    ensures LineCount(token, lines) == |LineHits(token, lines)|
    ensures LineCount(token, lines) <= |lines|
  {
    CountIsHits(lines, LineMatcher(token));
    assert Hits(lines, LineMatcher(token)) == LineHits(token, lines);
    CountBound(lines, LineMatcher(token));
  }

  lemma {:induction false} RowHitsSize(i: int, token: string, lines: seq<string>)
    ensures |RowHits(i, token, lines)| == LineCount(token, lines)
    decreases |lines|
  {
    if lines == [] {
      assert RowHits(i, token, lines) == {};
    } else {
      var n := |lines| - 1;
      var front := lines[..n];
      RowHitsSize(i, token, front);
      assert lines == front + [lines[n]];
      CountAppend(front, lines[n], LineMatcher(token));
      assert (i, n) !in RowHits(i, token, front);
      if Matches(token, lines[n]) {
        assert RowHits(i, token, lines) == RowHits(i, token, front) + {(i, n)};
      } else {
        assert RowHits(i, token, lines) == RowHits(i, token, front);
      }
    }
  }

  /** A pair term is the size of the full cross product of tokens and lines
      filtered by the substring rule. */
  lemma {:induction false} PairTermCountsPairs(tokens: seq<string>, lines: seq<string>)
    ensures PairTerm(tokens, lines) == |PairHits(tokens, lines)|
    decreases |tokens|
  {
    if tokens == [] {
      assert PairHits(tokens, lines) == {};
    } else {
      var n := |tokens| - 1;
      var front := tokens[..n];
      PairTermCountsPairs(front, lines);
      assert tokens == front + [tokens[n]];
      SumAppend(front, tokens[n], LineCounter(lines));
      RowHitsSize(n, tokens[n], lines);
      PairHitsSplit(tokens, lines);
    }
  }

  /** The pairs of all tokens are those of all but the last token plus the
      last token's row, and the two parts are disjoint. */
  lemma PairHitsSplit(tokens: seq<string>, lines: seq<string>)
    requires tokens != []
    ensures PairHits(tokens, lines)
         == PairHits(tokens[..|tokens| - 1], lines) + RowHits(|tokens| - 1, tokens[|tokens| - 1], lines)
    ensures PairHits(tokens[..|tokens| - 1], lines) !! RowHits(|tokens| - 1, tokens[|tokens| - 1], lines)
  {
    var n := |tokens| - 1;
    var front := tokens[..n];
    var row := RowHits(n, tokens[n], lines);
    forall pair | pair in PairHits(tokens, lines)
      ensures pair in PairHits(front, lines) + row
    {
      var (i, j) := pair;
      if i < n {
        assert front[i] == tokens[i];
        assert (i, j) in PairHits(front, lines);
      } else {
        assert (n, j) in row;
      }
    }
    forall pair | pair in PairHits(front, lines)
      ensures pair in PairHits(tokens, lines) && pair !in row
    {
      var (i, j) := pair;
      assert front[i] == tokens[i];
    }
    forall pair | pair in row
      ensures pair in PairHits(tokens, lines)
    {
      var (i, j) := pair;
      assert i == n;
    }
  }

  /** A pair term is at most one per pair, and nothing without lines. */
  lemma PairTermBound(tokens: seq<string>, lines: seq<string>)
    ensures PairTerm(tokens, lines) <= |tokens| * |lines|
    ensures lines == [] ==> PairTerm(tokens, lines) == 0
  {
    forall i | 0 <= i < |tokens|
      ensures LineCounter(lines)(tokens[i]) <= |lines|
    {
      CountBound(lines, LineMatcher(tokens[i]));
    }
    SumBound(tokens, LineCounter(lines), |lines|);
  }

  /** `match_score` counts the matching cuisine entries plus the matching
      pairs of both cross products. */
  lemma MatchScoreCountsHits(prefs: Preferences, recipe: Recipe)
    ensures MatchScore(prefs, recipe)
         == |CuisineHits(prefs.cuisinePreferences, recipe.title)|
          + |PairHits(prefs.dietaryRestrictions, recipe.ingredients)|
          + |PairHits(prefs.ingredientPreferences, recipe.ingredients)|
  {
    CuisineTermCountsEntries(prefs.cuisinePreferences, recipe.title);
    PairTermCountsPairs(prefs.dietaryRestrictions, recipe.ingredients);
    PairTermCountsPairs(prefs.ingredientPreferences, recipe.ingredients);
  }

  /** Bounds on `match_score`; without ingredient lines only the title counts. */
  lemma MatchScoreBound(prefs: Preferences, recipe: Recipe)
    ensures MatchScore(prefs, recipe)
         <= |prefs.cuisinePreferences|
          + |prefs.dietaryRestrictions| * |recipe.ingredients|
          + |prefs.ingredientPreferences| * |recipe.ingredients|
    ensures recipe.ingredients == []
         ==> MatchScore(prefs, recipe) == CuisineTerm(prefs.cuisinePreferences, recipe.title)
  {
    CuisineTermCountsEntries(prefs.cuisinePreferences, recipe.title);
    PairTermBound(prefs.dietaryRestrictions, recipe.ingredients);
    PairTermBound(prefs.ingredientPreferences, recipe.ingredients);
  }

  /** Reordering the ingredient lines changes no pair term. */
  lemma PairTermLinesPermutation(tokens: seq<string>, lines: seq<string>, lines': seq<string>)
    requires multiset(lines) == multiset(lines')
    ensures PairTerm(tokens, lines) == PairTerm(tokens, lines')
  {
    forall i | 0 <= i < |tokens|
      ensures LineCounter(lines)(tokens[i]) == LineCounter(lines')(tokens[i])
    {
      CountPermutation(lines, lines', LineMatcher(tokens[i]));
    }
    SumCongruent(tokens, LineCounter(lines), LineCounter(lines'));
  }

  /** Reordering any of the three preference lists leaves every score alone. */
  lemma PreferencePermutationKeepsScore(prefs: Preferences, prefs': Preferences, recipe: Recipe)
    requires multiset(prefs.cuisinePreferences) == multiset(prefs'.cuisinePreferences)
    requires multiset(prefs.dietaryRestrictions) == multiset(prefs'.dietaryRestrictions)
    requires multiset(prefs.ingredientPreferences) == multiset(prefs'.ingredientPreferences)
    ensures MatchScore(prefs, recipe) == MatchScore(prefs', recipe)
  {
    CountPermutation(prefs.cuisinePreferences, prefs'.cuisinePreferences, TitleMatcher(recipe.title));
    SumPermutation(prefs.dietaryRestrictions, prefs'.dietaryRestrictions, LineCounter(recipe.ingredients));
    SumPermutation(prefs.ingredientPreferences, prefs'.ingredientPreferences, LineCounter(recipe.ingredients));
  }

  /** Reordering a recipe's ingredient lines leaves its score alone. */
  lemma IngredientPermutationKeepsScore(prefs: Preferences, recipe: Recipe, recipe': Recipe)
    requires recipe'.title == recipe.title
    requires multiset(recipe.ingredients) == multiset(recipe'.ingredients)
    ensures MatchScore(prefs, recipe) == MatchScore(prefs, recipe')
  {
    PairTermLinesPermutation(prefs.dietaryRestrictions, recipe.ingredients, recipe'.ingredients);
    PairTermLinesPermutation(prefs.ingredientPreferences, recipe.ingredients, recipe'.ingredients);
  }

  /** Appending a cuisine token adds one if it is found in the title and
      nothing otherwise. */
  lemma AddCuisineToken(prefs: Preferences, token: string, recipe: Recipe)
    ensures MatchScore(prefs.(cuisinePreferences := prefs.cuisinePreferences + [token]), recipe)
         == MatchScore(prefs, recipe) + (if Matches(token, recipe.title) then 1 else 0)
  {
    CountAppend(prefs.cuisinePreferences, token, TitleMatcher(recipe.title));
  }

  /** Appending a dietary restriction adds the number of ingredient lines it
      is found in. */
  lemma AddDietaryToken(prefs: Preferences, token: string, recipe: Recipe)
    ensures MatchScore(prefs.(dietaryRestrictions := prefs.dietaryRestrictions + [token]), recipe)
         == MatchScore(prefs, recipe) + |LineHits(token, recipe.ingredients)|
  {
    SumAppend(prefs.dietaryRestrictions, token, LineCounter(recipe.ingredients));
    LineCountCountsLines(token, recipe.ingredients);
  }

  /** Appending an ingredient preference adds the number of ingredient lines it
      is found in. */
  lemma AddIngredientToken(prefs: Preferences, token: string, recipe: Recipe)
    ensures MatchScore(prefs.(ingredientPreferences := prefs.ingredientPreferences + [token]), recipe)
         == MatchScore(prefs, recipe) + |LineHits(token, recipe.ingredients)|
  {
    SumAppend(prefs.ingredientPreferences, token, LineCounter(recipe.ingredients));
    LineCountCountsLines(token, recipe.ingredients);
  }

  /** `prefs'` is `prefs` with one token appended to one of its lists. */
  ghost predicate OneTokenMore(prefs: Preferences, prefs': Preferences) {
    exists token: string ::
      || prefs' == prefs.(cuisinePreferences := prefs.cuisinePreferences + [token])
      || prefs' == prefs.(dietaryRestrictions := prefs.dietaryRestrictions + [token])
      || prefs' == prefs.(ingredientPreferences := prefs.ingredientPreferences + [token])
  }

  /** Adding a token to any preference list never lowers a score. */
  lemma AddTokenNeverLowersScore(prefs: Preferences, prefs': Preferences, recipe: Recipe)
    requires OneTokenMore(prefs, prefs')
    ensures MatchScore(prefs', recipe) >= MatchScore(prefs, recipe)
  {
    var token: string :|
      || prefs' == prefs.(cuisinePreferences := prefs.cuisinePreferences + [token])
      || prefs' == prefs.(dietaryRestrictions := prefs.dietaryRestrictions + [token])
      || prefs' == prefs.(ingredientPreferences := prefs.ingredientPreferences + [token]);
    AddCuisineToken(prefs, token, recipe);
    AddDietaryToken(prefs, token, recipe);
    AddIngredientToken(prefs, token, recipe);
  }

  /** The empty token is found everywhere: as a cuisine it adds one, as a
      restriction or preference it adds one per ingredient line. */
  lemma EmptyTokenMatchesEverything(prefs: Preferences, recipe: Recipe)
    ensures MatchScore(prefs.(cuisinePreferences := prefs.cuisinePreferences + [""]), recipe)
         == MatchScore(prefs, recipe) + 1
    ensures MatchScore(prefs.(dietaryRestrictions := prefs.dietaryRestrictions + [""]), recipe)
         == MatchScore(prefs, recipe) + |recipe.ingredients|
    ensures MatchScore(prefs.(ingredientPreferences := prefs.ingredientPreferences + [""]), recipe)
         == MatchScore(prefs, recipe) + |recipe.ingredients|
  {
    EmptyNeedleContained(Lower(recipe.title));
    AddCuisineToken(prefs, "", recipe);
    forall j | 0 <= j < |recipe.ingredients|
      ensures LineMatcher("")(recipe.ingredients[j])
    {
      EmptyNeedleContained(Lower(recipe.ingredients[j]));
    }
    CountAllIff(recipe.ingredients, LineMatcher(""));
    LineCountCountsLines("", recipe.ingredients);
    AddDietaryToken(prefs, "", recipe);
    AddIngredientToken(prefs, "", recipe);
  }

  /** A token with an upper-case ASCII letter is never found, since only the
      recipe side is lower-cased: appending it to any list changes nothing. */
  lemma UpperCaseTokenNeverMatches(prefs: Preferences, token: string, recipe: Recipe)
    requires !HasNoUpper(token)
    ensures MatchScore(prefs.(cuisinePreferences := prefs.cuisinePreferences + [token]), recipe)
         == MatchScore(prefs, recipe)
    ensures MatchScore(prefs.(dietaryRestrictions := prefs.dietaryRestrictions + [token]), recipe)
         == MatchScore(prefs, recipe)
    ensures MatchScore(prefs.(ingredientPreferences := prefs.ingredientPreferences + [token]), recipe)
         == MatchScore(prefs, recipe)
  {
    UpperNeedleNotInLower(token, recipe.title);
    AddCuisineToken(prefs, token, recipe);
    forall j | 0 <= j < |recipe.ingredients|
      ensures !LineMatcher(token)(recipe.ingredients[j])
    {
      UpperNeedleNotInLower(token, recipe.ingredients[j]);
    }
    CountZeroIff(recipe.ingredients, LineMatcher(token));
    LineCountCountsLines(token, recipe.ingredients);
    AddDietaryToken(prefs, token, recipe);
    AddIngredientToken(prefs, token, recipe);
  }

  /** A token found at `i` of a string without upper-case letters matches it. */
  lemma MatchesAt(token: string, text: string, i: nat)
    requires HasNoUpper(text)
    requires i + |token| <= |text| && text[i..i + |token|] == token
    ensures Matches(token, text)
  {
    assert OccursAt(token, Lower(text), i);
    ContainsIffOccurs(token, Lower(text));
  }

  /** A token with a letter that occurs nowhere in a string without
      upper-case letters does not match it. */
  lemma NoMatchWithoutLetter(token: string, text: string, k: nat)
    requires HasNoUpper(text)
    requires k < |token| && token[k] !in text
    ensures !Matches(token, text)
  {
    forall i | 0 <= i && i + |token| <= |text|
      ensures !OccursAt(token, Lower(text), i)
    {
      assert Lower(text)[i..i + |token|][k] == text[i + k] != token[k];
    }
    ContainsIffOccurs(token, Lower(text));
  }

  /** One token matching exactly one of two lines counts once. */
  lemma OneOfTwoLines(token: string, first: string, second: string)
    requires Matches(token, first) != Matches(token, second)
    ensures PairTerm([token], [first, second]) == 1
  {
    var lines := [first, second];
    assert lines == [first] + [second];
    assert [first] == [] + [first];
    CountAppend([], first, LineMatcher(token));
    CountAppend([first], second, LineMatcher(token));
    assert [token] == [] + [token];
    SumAppend([], token, LineCounter(lines));
  }

  // The concrete facts of the example below, one per lemma. Dafny unfolds
  // functions applied to literals eagerly, so the title is written as the
  // concatenation of its two words, each lower-cased on its own.

  lemma ItalianLowered()
    ensures Lower("Italian") == "italian"
  {
  }

  lemma PastaLowered()
    ensures Lower(" Pasta") == " pasta"
  {
  }

  lemma ItalianInTitle()
    ensures Matches("italian", "Italian" + " Pasta")
  {
    ItalianLowered();
    PastaLowered();
    LowerConcat("Italian", " Pasta");
    assert OccursAt("italian", "italian" + " pasta", 0);
    ContainsIffOccurs("italian", "italian" + " pasta");
  }

  lemma NutInPeanutButter()
    ensures Matches("nut", "peanut butter")
  {
    MatchesAt("nut", "peanut butter", 3);
  }

  lemma NutNotInBasilLeaves()
    ensures !Matches("nut", "basil leaves")
  {
    NoMatchWithoutLetter("nut", "basil leaves", 0);
  }

  lemma BasilInBasilLeaves()
    ensures Matches("basil", "basil leaves")
  {
    MatchesAt("basil", "basil leaves", 0);
  }

  lemma BasilNotInPeanutButter()
    ensures !Matches("basil", "peanut butter")
  {
    NoMatchWithoutLetter("basil", "peanut butter", 4);
  }

  /** "nut" is found inside "peanut butter": matching is unanchored, so a
      fragment of a longer word counts. Cuisine "italian" in "Italian Pasta",
      restriction "nut" in "peanut butter" and preference "basil" in "basil
      leaves" give a score of 3. */
  lemma FragmentMatchExample()
    ensures MatchScore(Preferences(["italian"], ["nut"], ["basil"]),
                       Recipe("Italian" + " Pasta", ["basil leaves", "peanut butter"], [], 4.5)) == 3
  {
    ItalianInTitle();
    assert ["italian"] == [] + ["italian"];
    CountAppend([], "italian", TitleMatcher("Italian" + " Pasta"));
    NutInPeanutButter();
    NutNotInBasilLeaves();
    OneOfTwoLines("nut", "basil leaves", "peanut butter");
    BasilInBasilLeaves();
    BasilNotInPeanutButter();
    OneOfTwoLines("basil", "basil leaves", "peanut butter");
  }
}
