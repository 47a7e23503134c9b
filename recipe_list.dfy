/** The recipe list page: the recipes shown are those of the fetched list that pass
    three independent filters (name, category, ingredient), in their fetched order. */
module RecipeList {
  import opened Wrappers
  import opened Text

  /** A row of the `recipes` table, reduced to the columns the filter reads
      (the other columns ride along unchanged and are not modelled). */
  datatype Recipe = Recipe(id: string, name: string, categoryId: Option<string>)

  /** A row of the `ingredients` table, reduced to the columns the filter reads. */
  datatype Ingredient = Ingredient(id: string, recipeId: string, name: string)

  /** The page's three filter inputs; the empty string means "no filter". */
  datatype Filters = Filters(searchTerm: string, selectedCategory: string, selectedIngredient: string)

  const NoFilters := Filters("", "", "")

  /** The recipe's name contains the search term, ignoring case. */
  predicate NameMatch(recipe: Recipe, searchTerm: string)
    ensures searchTerm == "" ==> NameMatch(recipe, searchTerm)
    ensures NameMatch(recipe, searchTerm) ==> |searchTerm| <= |recipe.name|
  {
    ContainsEmpty(Lower(recipe.name));
    Contains(Lower(recipe.name), Lower(searchTerm))
  }

  /** No category is selected, or the recipe is in the selected one. */
  predicate CategoryMatch(recipe: Recipe, selectedCategory: string)
    ensures selectedCategory == "" ==> CategoryMatch(recipe, selectedCategory)
    ensures recipe.categoryId.None? ==> (CategoryMatch(recipe, selectedCategory) <==> selectedCategory == "")
  {
    selectedCategory == "" || recipe.categoryId == Some(selectedCategory)
  }

  /** The ingredient belongs to the recipe and its name contains the term, ignoring case. */
  predicate IngredientMatch(ing: Ingredient, recipe: Recipe, term: string)
    ensures IngredientMatch(ing, recipe, term) ==> ing.recipeId == recipe.id && |term| <= |ing.name|
  {
    ing.recipeId == recipe.id && Contains(Lower(ing.name), Lower(term))
  }

  /** No ingredient term is given, or some ingredient of the recipe matches it. */
  predicate HasIngredient(ingredients: seq<Ingredient>, recipe: Recipe, term: string)
    ensures term == "" ==> HasIngredient(ingredients, recipe, term)
    ensures ingredients == [] ==> (HasIngredient(ingredients, recipe, term) <==> term == "")
  {
    term == "" || exists k :: 0 <= k < |ingredients| && IngredientMatch(ingredients[k], recipe, term)
  }

  /** The predicate passed to `recipes.filter`. */
  predicate Keeps(recipe: Recipe, ingredients: seq<Ingredient>, f: Filters)
    ensures f == NoFilters ==> Keeps(recipe, ingredients, f)
    ensures Keeps(recipe, ingredients, f) && f.selectedCategory != "" ==> recipe.categoryId == Some(f.selectedCategory)
  {
    && NameMatch(recipe, f.searchTerm)
    && CategoryMatch(recipe, f.selectedCategory)
    && HasIngredient(ingredients, recipe, f.selectedIngredient)
  }

  /** `filteredRecipes`: the recipes that pass all three filters, in their original order. */
  function FilterRecipes(recipes: seq<Recipe>, ingredients: seq<Ingredient>, f: Filters): (r: seq<Recipe>)
    ensures |r| <= |recipes|
    ensures forall x :: x in r <==> x in recipes && Keeps(x, ingredients, f)
  {
    if recipes == [] then []
    else
      var rest := FilterRecipes(recipes[1..], ingredients, f);
      if Keeps(recipes[0], ingredients, f) then [recipes[0]] + rest else rest
  }

  /** `idx` lists, in strictly increasing order, positions of `s` whose elements
      make up `r`: `r` is a subsequence of `s`. */
  predicate SubsequenceAt<T(==)>(r: seq<T>, s: seq<T>, idx: seq<nat>) {
    && |idx| == |r|
    && (forall k :: 0 <= k < |idx| ==> idx[k] < |s| && r[k] == s[idx[k]])
    && (forall k, l :: 0 <= k < l < |idx| ==> idx[k] < idx[l])
  }

  /** Every position moved one place to the right. */
  function Shifted(idx: seq<nat>): (r: seq<nat>)
    ensures |r| == |idx| && forall k :: 0 <= k < |r| ==> r[k] == idx[k] + 1
  {
    seq(|idx|, k requires 0 <= k < |idx| => idx[k] + 1)
  }

  /** A subsequence of `s[1..]` is one of `s`, after moving its positions one place right;
      and so is that subsequence with `s[0]` in front. */
  lemma SubsequenceCons<T>(r: seq<T>, s: seq<T>, idx: seq<nat>)
    requires s != [] && SubsequenceAt(r, s[1..], idx)
    ensures SubsequenceAt(r, s, Shifted(idx))
    ensures SubsequenceAt([s[0]] + r, s, [0] + Shifted(idx))
    ensures forall j :: 1 <= j < |s| ==> (j in Shifted(idx) <==> j - 1 in idx)
    ensures 0 !in Shifted(idx)
  {
    var sh := Shifted(idx);
    forall j | 1 <= j < |s| ensures j in sh <==> j - 1 in idx {
      if j - 1 in idx {
        var k :| 0 <= k < |idx| && idx[k] == j - 1;
        assert sh[k] == j;
      }
    }
    var r', sh' := [s[0]] + r, [0] + sh;
    assert forall k :: 1 <= k < |sh'| ==> r'[k] == r[k - 1] && sh'[k] == sh[k - 1];
  }

  /** The result is the subsequence of `recipes` at exactly the positions whose recipe passes. */
  lemma {:induction false} FilterPositions(recipes: seq<Recipe>, ingredients: seq<Ingredient>, f: Filters)
    returns (idx: seq<nat>)
    ensures SubsequenceAt(FilterRecipes(recipes, ingredients, f), recipes, idx)
    ensures forall j :: 0 <= j < |recipes| ==> (j in idx <==> Keeps(recipes[j], ingredients, f))
  {
    if recipes == [] {
      idx := [];
    } else {
      var tail := FilterPositions(recipes[1..], ingredients, f);
      SubsequenceCons(FilterRecipes(recipes[1..], ingredients, f), recipes, tail);
      if Keeps(recipes[0], ingredients, f) {
        idx := [0] + Shifted(tail);
      } else {
        idx := Shifted(tail);
      }
      assert forall j :: 1 <= j < |recipes| ==> recipes[j] == recipes[1..][j - 1];
    }
  }

  /** Every recipe occurs in the result exactly as often as in `recipes` when it passes,
      and not at all otherwise: the filter introduces no duplicates. */
  lemma {:induction false} FilterMultiplicity(recipes: seq<Recipe>, ingredients: seq<Ingredient>, f: Filters, x: Recipe)
    ensures multiset(FilterRecipes(recipes, ingredients, f))[x]
         == if Keeps(x, ingredients, f) then multiset(recipes)[x] else 0
  {
    if recipes != [] {
      FilterMultiplicity(recipes[1..], ingredients, f, x);
      assert recipes == [recipes[0]] + recipes[1..];
    }
  }

  /** With every filter empty, the page shows all recipes. */
  lemma {:induction false} NoFiltersKeepsAll(recipes: seq<Recipe>, ingredients: seq<Ingredient>)
    ensures FilterRecipes(recipes, ingredients, NoFilters) == recipes
  {
    if recipes != [] {
      ContainsEmpty(Lower(recipes[0].name));
      NoFiltersKeepsAll(recipes[1..], ingredients);
    }
  }

  /** Two filterings agree when their predicates agree on every recipe of the list. */
  lemma {:induction false} FilterCongruent(recipes: seq<Recipe>, ings1: seq<Ingredient>, f1: Filters,
                                           ings2: seq<Ingredient>, f2: Filters)
    requires forall x :: x in recipes ==> (Keeps(x, ings1, f1) <==> Keeps(x, ings2, f2))
    ensures FilterRecipes(recipes, ings1, f1) == FilterRecipes(recipes, ings2, f2)
  {
    if recipes != [] {
      FilterCongruent(recipes[1..], ings1, f1, ings2, f2);
    }
  }

  /** Replacing the search term by one that differs only in letter case changes nothing. */
  lemma SearchTermIgnoresCase(recipes: seq<Recipe>, ingredients: seq<Ingredient>, f: Filters, term: string)
    requires SameIgnoringCase(f.searchTerm, term)
    ensures FilterRecipes(recipes, ingredients, f) == FilterRecipes(recipes, ingredients, f.(searchTerm := term))
  {
    SameIgnoringCaseIff(f.searchTerm, term);
    FilterCongruent(recipes, ingredients, f, ingredients, f.(searchTerm := term));
  }

  /** Replacing the ingredient term by one that differs only in letter case changes nothing. */
  lemma IngredientTermIgnoresCase(recipes: seq<Recipe>, ingredients: seq<Ingredient>, f: Filters, term: string)
    requires SameIgnoringCase(f.selectedIngredient, term)
    ensures FilterRecipes(recipes, ingredients, f)
         == FilterRecipes(recipes, ingredients, f.(selectedIngredient := term))
  {
    SameIgnoringCaseIff(f.selectedIngredient, term);
    var g := f.(selectedIngredient := term);
    forall x | x in recipes ensures Keeps(x, ingredients, f) <==> Keeps(x, ingredients, g) {
      if f.selectedIngredient != "" {
        assert forall k :: 0 <= k < |ingredients| ==>
          (IngredientMatch(ingredients[k], x, f.selectedIngredient) <==> IngredientMatch(ingredients[k], x, term));
      }
    }
    FilterCongruent(recipes, ingredients, f, ingredients, g);
  }

  /** With a category selected, every recipe shown is in that category. */
  lemma CategoryFilterSound(recipes: seq<Recipe>, ingredients: seq<Ingredient>, f: Filters)
    requires f.selectedCategory != ""
    ensures forall x :: x in FilterRecipes(recipes, ingredients, f) ==> x.categoryId == Some(f.selectedCategory)
  {
  }

  /** With an ingredient term given, every recipe shown has an ingredient of its own
      whose lower-cased name contains the lower-cased term. */
  lemma IngredientFilterSound(recipes: seq<Recipe>, ingredients: seq<Ingredient>, f: Filters)
    requires f.selectedIngredient != ""
    ensures forall x :: x in FilterRecipes(recipes, ingredients, f) ==>
      exists k :: 0 <= k < |ingredients| && ingredients[k].recipeId == x.id
                  && Contains(Lower(ingredients[k].name), Lower(f.selectedIngredient))
  {
  }

  /** Ingredients that belong to no recipe of the list, wherever they stand in the
      ingredient list, never change the result. */
  lemma OrphanIngredientsIgnored(recipes: seq<Recipe>, before: seq<Ingredient>, orphans: seq<Ingredient>,
                                 after: seq<Ingredient>, f: Filters)
    requires forall e, x :: e in orphans && x in recipes ==> e.recipeId != x.id
    ensures FilterRecipes(recipes, before + orphans + after, f) == FilterRecipes(recipes, before + after, f)
  {
    var full, kept := before + orphans + after, before + after;
    forall x | x in recipes
      ensures HasIngredient(full, x, f.selectedIngredient) <==> HasIngredient(kept, x, f.selectedIngredient)
    {
      var term := f.selectedIngredient;
      if term != "" {
        if HasIngredient(full, x, term) {
          var k :| 0 <= k < |full| && IngredientMatch(full[k], x, term);
          if k < |before| {
            assert kept[k] == full[k];
          } else {
            assert k >= |before| + |orphans| by {
              assert forall j :: |before| <= j < |before| + |orphans| ==> full[j] in orphans;
            }
            assert kept[k - |orphans|] == full[k];
          }
        }
        if HasIngredient(kept, x, term) {
          var k :| 0 <= k < |kept| && IngredientMatch(kept[k], x, term);
          if k < |before| {
            assert full[k] == kept[k];
          } else {
            assert full[k + |orphans|] == kept[k];
          }
        }
      }
    }
    FilterCongruent(recipes, full, f, kept, f);
  }

  /** An example scenario: with recipes "Pasta" and "Salad", the search "pa" shows only "Pasta". */
  lemma PastaSaladExample(ingredients: seq<Ingredient>)
    ensures FilterRecipes([Recipe("1", "Pasta", None), Recipe("2", "Salad", None)], ingredients, Filters("pa", "", ""))
         == [Recipe("1", "Pasta", None)]
  {
    assert Lower("Pasta") == "pasta";
    assert Lower("Salad") == "salad";
    assert Lower("pa") == "pa";
    assert "pa" <= "pasta"[0..];
    assert !Contains("salad", "pa") by {
      forall i | 0 <= i <= 3 ensures !("pa" <= "salad"[i..]) {
        assert "salad"[i] != 'p';
      }
    }
  }
}
