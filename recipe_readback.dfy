/**
 * What `getRecipeById` returns after the recipe app's writes: a recipe just added reads back with
 * its own ingredients and instructions in `sort_order` and `step_number` order; a deleted recipe
 * reads back as null and leaves no ingredient or instruction behind; and neither write changes what
 * any other recipe reads back as.
 */
module RecipeReadBack {
  import opened Wrappers
  import opened Table
  import opened RecipeRows

  /** On valid tables no stored row belongs to the id the counter hands out next. */
  lemma NothingUnder(t: RecipeTables, n: nat)
    requires RecipeTablesValid(t, n)
    ensures forall r :: r in t.recipes ==> !RecipeIs(IdText(n))(r)
    ensures forall r :: r in t.ingredients ==> !IngredientIn(IdText(n))(r)
    ensures forall r :: r in t.instructions ==> !InstructionIn(IdText(n))(r)
  {
    IdTextIssued(n, n);
  }

  /** After `addRecipe`, the recipe's ingredient rows are exactly the ones it inserted, in insertion order. */
  lemma AddedIngredients(t: RecipeTables, n: nat, x: RecipeInput, ings: seq<IngredientInput>,
                         insts: seq<InstructionInput>)
    requires RecipeTablesValid(t, n)
    ensures Where(AddRecipeRows(t, n, x, ings, insts).ingredients, IngredientIn(IdText(n)))
              == IngredientRows(IdText(n), n + 1, ings)
  {
    NothingUnder(t, n);
    WhereFresh(t.ingredients, IngredientRows(IdText(n), n + 1, ings), IngredientIn(IdText(n)));
  }

  /** After `addRecipe`, the recipe's instruction rows are exactly the ones it inserted, in insertion order. */
  lemma AddedInstructions(t: RecipeTables, n: nat, x: RecipeInput, ings: seq<IngredientInput>,
                          insts: seq<InstructionInput>)
    requires RecipeTablesValid(t, n)
    ensures Where(AddRecipeRows(t, n, x, ings, insts).instructions, InstructionIn(IdText(n)))
              == InstructionRows(IdText(n), n + 1 + |ings|, insts)
  {
    NothingUnder(t, n);
    WhereFresh(t.instructions, InstructionRows(IdText(n), n + 1 + |ings|, insts), InstructionIn(IdText(n)));
  }

  /** `getRecipeById` right after `addRecipe` orders the inserted rows and nothing else. */
  lemma AddedDetails(t: RecipeTables, n: nat, x: RecipeInput, ings: seq<IngredientInput>,
                     insts: seq<InstructionInput>)
    requires RecipeTablesValid(t, n)
    ensures var rid := IdText(n);
            RecipeDetails(AddRecipeRows(t, n, x, ings, insts), rid)
              == Some(RecipeView(RecipeRowOf(rid, x), SortBy(IngredientRows(rid, n + 1, ings), IngredientOrder),
                                 SortBy(InstructionRows(rid, n + 1 + |ings|, insts), InstructionOrder)))
  {
    var rid := IdText(n);
    NothingUnder(t, n);
    FirstWhereAfter(t.recipes, [RecipeRowOf(rid, x)], RecipeIs(rid));
    AddedIngredients(t, n, x, ings, insts);
    AddedInstructions(t, n, x, ings, insts);
  }

  /**
   * `getRecipeById` right after `addRecipe` finds the recipe as given, its ingredients ordered by
   * `sort_order` and its instructions by `step_number`, each list holding exactly the rows inserted.
   */
  lemma AddRecipeThenRead(t: RecipeTables, n: nat, x: RecipeInput, ings: seq<IngredientInput>,
                          insts: seq<InstructionInput>)
    requires RecipeTablesValid(t, n)
    ensures var rid := IdText(n);
            var r := RecipeDetails(AddRecipeRows(t, n, x, ings, insts), rid);
            && r.Some?
            && r.value.recipe == RecipeRowOf(rid, x)
            && SortedBy(r.value.ingredients, IngredientOrder)
            && multiset(r.value.ingredients) == multiset(IngredientRows(rid, n + 1, ings))
            && SortedBy(r.value.instructions, InstructionOrder)
            && multiset(r.value.instructions) == multiset(InstructionRows(rid, n + 1 + |ings|, insts))
  {
    var rid := IdText(n);
    AddedDetails(t, n, x, ings, insts);
    SortByOrders(IngredientRows(rid, n + 1, ings), IngredientOrder);
    SortByOrders(InstructionRows(rid, n + 1 + |ings|, insts), InstructionOrder);
  }

  /** Ingredients given in `sort_order` order keep that order as rows. */
  lemma IngredientRowsSorted(rid: string, base: nat, ings: seq<IngredientInput>)
    requires forall i, j :: 0 <= i < j < |ings| ==> ings[i].sortOrder <= ings[j].sortOrder
    ensures SortedBy(IngredientRows(rid, base, ings), IngredientOrder)
  {
  }

  /** Instructions given in `step_number` order keep that order as rows. */
  lemma InstructionRowsSorted(rid: string, base: nat, insts: seq<InstructionInput>)
    requires forall i, j :: 0 <= i < j < |insts| ==> insts[i].stepNumber <= insts[j].stepNumber
    ensures SortedBy(InstructionRows(rid, base, insts), InstructionOrder)
  {
  }

  /** Ingredients and instructions given already in order read back exactly as given. */
  lemma AddRecipeKeepsGivenOrder(t: RecipeTables, n: nat, x: RecipeInput, ings: seq<IngredientInput>,
                                 insts: seq<InstructionInput>)
    requires RecipeTablesValid(t, n)
    requires forall i, j :: 0 <= i < j < |ings| ==> ings[i].sortOrder <= ings[j].sortOrder
    requires forall i, j :: 0 <= i < j < |insts| ==> insts[i].stepNumber <= insts[j].stepNumber
    ensures var rid := IdText(n);
            RecipeDetails(AddRecipeRows(t, n, x, ings, insts), rid)
              == Some(RecipeView(RecipeRowOf(rid, x), IngredientRows(rid, n + 1, ings),
                                 InstructionRows(rid, n + 1 + |ings|, insts)))
  {
    var rid := IdText(n);
    AddedDetails(t, n, x, ings, insts);
    IngredientRowsSorted(rid, n + 1, ings);
    SortBySorted(IngredientRows(rid, n + 1, ings), IngredientOrder);
    InstructionRowsSorted(rid, n + 1 + |ings|, insts);
    SortBySorted(InstructionRows(rid, n + 1 + |ings|, insts), InstructionOrder);
  }

  /** `getRecipeById` after `deleteRecipe` of the same id returns null. */
  lemma DeleteRecipeThenRead(t: RecipeTables, id: string)
    ensures RecipeDetails(DeleteRecipeRows(t, id), id) == None
  {
    var d := DeleteRecipeRows(t, id);
    assert forall r :: r in d.recipes ==> RecipeIsNot(id)(r);
  }

  /** No row of the recipe remains, and the shopping list, which only copies from recipes, stays. */
  lemma DeleteRecipeRemovesRows(t: RecipeTables, id: string)
    ensures var d := DeleteRecipeRows(t, id);
            && (forall r :: r in d.recipes ==> r.id != id)
            && (forall r :: r in d.ingredients ==> r.recipeId != id)
            && (forall r :: r in d.instructions ==> r.recipeId != id)
            && d.shopping == t.shopping
  {
    var d := DeleteRecipeRows(t, id);
    assert forall r :: r in d.recipes ==> RecipeIsNot(id)(r);
    assert forall r :: r in d.ingredients ==> IngredientNotIn(id)(r);
    assert forall r :: r in d.instructions ==> InstructionNotIn(id)(r);
  }

  /** Deleting one recipe does not change what another reads back as. */
  lemma DeleteRecipeKeepsOthers(t: RecipeTables, id: string, other: string)
    requires other != id
    ensures RecipeDetails(DeleteRecipeRows(t, id), other) == RecipeDetails(t, other)
  {
    FirstWhereWhere(t.recipes, RecipeIsNot(id), RecipeIs(other));
    WhereWhere(t.ingredients, IngredientNotIn(id), IngredientIn(other), IngredientIn(other));
    WhereWhere(t.instructions, InstructionNotIn(id), InstructionIn(other), InstructionIn(other));
  }

  /** Adding a recipe does not change what any other recipe reads back as. */
  lemma AddRecipeKeepsOthers(t: RecipeTables, n: nat, x: RecipeInput, ings: seq<IngredientInput>,
                             insts: seq<InstructionInput>, other: string)
    requires other != IdText(n)
    ensures RecipeDetails(AddRecipeRows(t, n, x, ings, insts), other) == RecipeDetails(t, other)
  {
    var rid := IdText(n);
    FirstWhereBefore(t.recipes, [RecipeRowOf(rid, x)], RecipeIs(other));
    WhereAppendNone(t.ingredients, IngredientRows(rid, n + 1, ings), IngredientIn(other));
    WhereAppendNone(t.instructions, InstructionRows(rid, n + 1 + |ings|, insts), InstructionIn(other));
  }
}
