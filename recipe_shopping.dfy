/**
 * The shopping list as `getShoppingList` shows it after each shopping-list write: a new item comes
 * first and unchecked, a toggle flips exactly the items with the id (twice restores them), a remove
 * drops exactly those items, and adding a recipe copies each of its ingredients' name, quantity
 * and unit.
 */
module RecipeShopping {
  import opened Wrappers
  import opened Table
  import opened RecipeRows
  import opened RecipeReadBack

  /** Every stored `checked` flag is 0 or 1, as the app's own writes leave it. */
  predicate ShoppingFlagsValid(rows: seq<ShoppingRow>) {
    forall r :: r in rows ==> r.checked == 0 || r.checked == 1
  }

  /** The item `addToShoppingList` stores reads back first, unchecked, with its fields as given. */
  lemma AddedShoppingFirst(t: RecipeTables, id: string, item: ShoppingInput)
    ensures var before := ShoppingView(t);
            var after := ShoppingView(t.(shopping := t.shopping + [ShoppingRowOf(id, item)]));
            && |after| == |before| + 1
            && after[0] == ShoppingItem(id, item.ingredientName, item.quantity, item.unit, false, item.recipeId)
            && after[1..] == before
  {
    var before := ShoppingView(t);
    var after := ShoppingView(t.(shopping := t.shopping + [ShoppingRowOf(id, item)]));
    assert after[1..] == before by {
      forall i | 0 <= i < |before| ensures after[1..][i] == before[i] {
        assert after[1 + i] == DecodeShopping(t.shopping[|t.shopping| - 1 - i]);
      }
    }
  }

  /**
   * `toggleShoppingItem`: every item with the id changes its `checked`, and nothing else changes;
   * with a flag other than 0 or 1 `NOT` would not flip what `checked === 1` shows.
   */
  lemma ShoppingToggleFlips(t: RecipeTables, id: string)
    requires ShoppingFlagsValid(t.shopping)
    ensures var before := ShoppingView(t);
            var after := ShoppingView(t.(shopping := ToggleShopping(t.shopping, id)));
            && |after| == |before|
            && forall i :: 0 <= i < |before| ==>
                 after[i] == if before[i].id == id then before[i].(checked := !before[i].checked) else before[i]
  {
    var rows := t.shopping;
    forall i | 0 <= i < |rows| ensures rows[i].checked == 0 || rows[i].checked == 1 {
      assert rows[i] in rows;
    }
  }

  /** Toggling the same id twice restores the shopping list. */
  lemma ShoppingToggleTwice(rows: seq<ShoppingRow>, id: string)
    requires ShoppingFlagsValid(rows)
    ensures ToggleShopping(ToggleShopping(rows, id), id) == rows
  {
    var once := ToggleShopping(rows, id);
    forall i | 0 <= i < |rows| ensures ToggleShopping(once, id)[i] == rows[i] {
      assert rows[i] in rows;
    }
  }

  /** `getShoppingList` shows exactly the decoded stored rows. */
  lemma ShoppingViewMembers(t: RecipeTables)
    ensures forall item :: item in ShoppingView(t) <==> exists r :: r in t.shopping && DecodeShopping(r) == item
  {
    var rows := t.shopping;
    var view := ShoppingView(t);
    forall item | item in view ensures exists r :: r in rows && DecodeShopping(r) == item {
      var i :| 0 <= i < |view| && view[i] == item;
      assert rows[|rows| - 1 - i] in rows;
    }
    forall r | r in rows ensures DecodeShopping(r) in view {
      var k :| 0 <= k < |rows| && rows[k] == r;
      assert view[|rows| - 1 - k] == DecodeShopping(r);
    }
  }

  /** `removeShoppingItem`: the items left are exactly those with another id. */
  lemma ShoppingRemoveDropsId(t: RecipeTables, id: string)
    ensures var before := ShoppingView(t);
            var after := ShoppingView(t.(shopping := Where(t.shopping, ShoppingIsNot(id))));
            forall item :: item in after <==> item in before && item.id != id
  {
    ShoppingViewMembers(t);
    ShoppingViewMembers(t.(shopping := Where(t.shopping, ShoppingIsNot(id))));
  }

  /** The i-th row of a run of `addToShoppingList` calls takes the i-th id. */
  lemma {:induction false} ShoppingRowsAt(base: nat, items: seq<ShoppingInput>, i: nat)
    requires i < |items|
    ensures ShoppingRows(base, items)[i] == ShoppingRowOf(IdText(base + i), items[i])
    decreases |items|
  {
    var init := items[..|items| - 1];
    if i < |init| {
      ShoppingRowsAt(base, init, i);
    }
  }

  /**
   * `addRecipeToShoppingList`: one unchecked row per ingredient of the recipe, in table order,
   * carrying its name, quantity and unit and the recipe id (its notes are not copied); ids continue
   * from the counter.
   */
  lemma RecipeItems(t: RecipeTables, n: nat, rid: string)
    ensures var ings := ShoppingIngredients(t, rid);
            var rows := ShoppingRows(n, RecipeEntries(t, rid));
            && (forall r :: r in ings <==> r in t.ingredients && r.recipeId == rid)
            && |rows| == |ings|
            && (forall i :: 0 <= i < |ings| ==>
                  rows[i] == ShoppingRow(IdText(n + i), ings[i].name, ings[i].quantity, ings[i].unit, 0, Some(rid)))
  {
    var ings := ShoppingIngredients(t, rid);
    var entries := RecipeEntries(t, rid);
    forall i | 0 <= i < |ings|
      ensures ShoppingRows(n, entries)[i]
                == ShoppingRow(IdText(n + i), ings[i].name, ings[i].quantity, ings[i].unit, 0, Some(rid))
    {
      ShoppingRowsAt(n, entries, i);
    }
  }

  /**
   * Adding a recipe and then putting it on the shopping list gives one unchecked item per
   * ingredient as it was given, in the order given, whatever its `sort_order`.
   */
  lemma AddedRecipeShopping(t: RecipeTables, n: nat, x: RecipeInput, ings: seq<IngredientInput>,
                            insts: seq<InstructionInput>, m: nat)
    requires RecipeTablesValid(t, n)
    ensures var a := AddRecipeRows(t, n, x, ings, insts);
            var rows := ShoppingRows(m, RecipeEntries(a, IdText(n)));
            && |rows| == |ings|
            && (forall i :: 0 <= i < |ings| ==>
                  rows[i] == ShoppingRow(IdText(m + i), ings[i].name, ings[i].quantity, ings[i].unit, 0,
                                         Some(IdText(n))))
  {
    var a := AddRecipeRows(t, n, x, ings, insts);
    AddedIngredients(t, n, x, ings, insts);
    RecipeItems(a, m, IdText(n));
  }
}
