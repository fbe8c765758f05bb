/**
 * The invariant `RecipeTablesValid` is kept by every write of the recipe app's database layer.
 */
module RecipeValidity {
  import opened Wrappers
  import opened Table
  import opened RecipeRows

  /** More ids handed out keeps every earlier id issued. */
  lemma RecipeValidLater(t: RecipeTables, n: nat, m: nat)
    requires RecipeTablesValid(t, n) && n <= m
    ensures RecipeTablesValid(t, m)
  {
  }

  lemma IngredientRowsIssued(rid: string, base: nat, ings: seq<IngredientInput>, m: nat)
    requires Issued(rid, m) && base + |ings| <= m
    ensures forall r :: r in IngredientRows(rid, base, ings) ==> Issued(r.id, m) && Issued(r.recipeId, m)
  {
    forall r | r in IngredientRows(rid, base, ings) ensures Issued(r.id, m) {
      var i :| 0 <= i < |ings| && IngredientRows(rid, base, ings)[i] == r;
      IdTextIssued(base + i, m);
    }
  }

  lemma InstructionRowsIssued(rid: string, base: nat, insts: seq<InstructionInput>, m: nat)
    requires Issued(rid, m) && base + |insts| <= m
    ensures forall r :: r in InstructionRows(rid, base, insts) ==> Issued(r.id, m) && Issued(r.recipeId, m)
  {
    forall r | r in InstructionRows(rid, base, insts) ensures Issued(r.id, m) {
      var i :| 0 <= i < |insts| && InstructionRows(rid, base, insts)[i] == r;
      IdTextIssued(base + i, m);
    }
  }

  /** `addRecipe` keeps the invariant, with the counter advanced past every id it used. */
  lemma AddRecipeKeepsValid(t: RecipeTables, n: nat, x: RecipeInput, ings: seq<IngredientInput>,
                            insts: seq<InstructionInput>)
    requires RecipeTablesValid(t, n)
    ensures RecipeTablesValid(AddRecipeRows(t, n, x, ings, insts), n + 1 + |ings| + |insts|)
  {
    var m := n + 1 + |ings| + |insts|;
    var rid := IdText(n);
    RecipeValidLater(t, n, m);
    IdTextIssued(n, m);
    IngredientRowsIssued(rid, n + 1, ings, m);
    InstructionRowsIssued(rid, n + 1 + |ings|, insts, m);
  }

  /** `deleteRecipe` only removes rows, so the invariant survives. */
  lemma DeleteRecipeKeepsValid(t: RecipeTables, n: nat, id: string)
    requires RecipeTablesValid(t, n)
    ensures RecipeTablesValid(DeleteRecipeRows(t, id), n)
  {
  }

  lemma AddToShoppingKeepsValid(t: RecipeTables, n: nat, item: ShoppingInput)
    requires RecipeTablesValid(t, n)
    ensures RecipeTablesValid(t.(shopping := t.shopping + [ShoppingRowOf(IdText(n), item)]), n + 1)
  {
    IdTextIssued(n, n + 1);
  }

  lemma ToggleShoppingKeepsValid(t: RecipeTables, n: nat, id: string)
    requires RecipeTablesValid(t, n)
    ensures RecipeTablesValid(t.(shopping := ToggleShopping(t.shopping, id)), n)
  {
    var rows := ToggleShopping(t.shopping, id);
    forall r | r in rows ensures Issued(r.id, n) && (r.checked == 0 || r.checked == 1) {
      var i :| 0 <= i < |rows| && rows[i] == r;
      assert t.shopping[i] in t.shopping;
    }
  }

  lemma RemoveShoppingKeepsValid(t: RecipeTables, n: nat, id: string)
    requires RecipeTablesValid(t, n)
    ensures RecipeTablesValid(t.(shopping := Where(t.shopping, ShoppingIsNot(id))), n)
  {
  }

  lemma {:induction false} ShoppingRowsIssued(base: nat, items: seq<ShoppingInput>)
    ensures forall r :: r in ShoppingRows(base, items) ==> Issued(r.id, base + |items|) && r.checked == 0
    decreases |items|
  {
    if items != [] {
      var init := items[..|items| - 1];
      ShoppingRowsIssued(base, init);
      IdTextIssued(base + |init|, base + |items|);
      forall r | r in ShoppingRows(base, init) ensures Issued(r.id, base + |items|) {
      }
    }
  }

  lemma AddRecipeToShoppingKeepsValid(t: RecipeTables, n: nat, rid: string)
    requires RecipeTablesValid(t, n)
    ensures var entries := RecipeEntries(t, rid);
            RecipeTablesValid(t.(shopping := t.shopping + ShoppingRows(n, entries)), n + |entries|)
  {
    ShoppingRowsIssued(n, RecipeEntries(t, rid));
    RecipeValidLater(t, n, n + |RecipeEntries(t, rid)|);
  }
}
