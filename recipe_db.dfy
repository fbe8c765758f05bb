/**
 * The recipe app's database layer: every exported operation of the module, as a method of a
 * database object whose state is the tables and the id supply. Each method is specified by the
 * plan or read function it must agree with.
 */
module RecipeDb {
  import opened Wrappers
  import opened Table
  import opened RecipeRows
  import opened RecipeValidity

  class RecipeDatabase {
    var tables: RecipeTables
    /** How many ids `generateId` has handed out. */
    var nextId: nat

    ghost predicate Valid()
      reads this
    {
      RecipeTablesValid(tables, nextId)
    }

    constructor ()
      ensures tables == NoRecipeTables && nextId == 0
      ensures Valid()
    {
      tables := NoRecipeTables;
      nextId := 0;
    }

    /** `generateId`: an id that differs from every id handed out before. */
    method GenerateId() returns (id: string)
      modifies this
      ensures id == IdText(old(nextId)) && nextId == old(nextId) + 1 && tables == old(tables)
    {
      id := IdText(nextId);
      nextId := nextId + 1;
    }

    /** `getRecipes`: every recipe, the most recently added first. */
    method GetRecipes() returns (r: seq<RecipeRow>)
      ensures |r| == |tables.recipes|
      ensures forall i :: 0 <= i < |r| ==> r[i] == tables.recipes[|r| - 1 - i]
    {
      r := NewestFirst(tables.recipes);
    }

    /** `getRecipeById`: null for an unknown id, else the recipe with its ordered ingredients and instructions. */
    method GetRecipeById(id: string) returns (r: Option<RecipeView>)
      ensures r == RecipeDetails(tables, id)
    {
      var recipe := FirstWhere(tables.recipes, RecipeIs(id));
      if recipe.None? {
        return None;
      }
      var ingredients := SortBy(Where(tables.ingredients, IngredientIn(id)), IngredientOrder);
      var instructions := SortBy(Where(tables.instructions, InstructionIn(id)), InstructionOrder);
      r := Some(RecipeView(recipe.value, ingredients, instructions));
    }

    /** `addRecipe`: the recipe row, then one row per ingredient and one per instruction. */
    method AddRecipe(x: RecipeInput, ings: seq<IngredientInput>, insts: seq<InstructionInput>)
      returns (rid: string)
      requires Valid()
      modifies this
      ensures Valid()
      ensures rid == IdText(old(nextId))
      ensures tables == AddRecipeRows(old(tables), old(nextId), x, ings, insts)
      ensures nextId == old(nextId) + 1 + |ings| + |insts|
    {
      rid := GenerateId();
      tables := tables.(recipes := tables.recipes
        + [RecipeRow(rid, x.title, x.description, x.imageUrl, x.prepTime, x.cookTime, x.totalTime,
                     x.servings, x.sourceUrl)]);
      InsertIngredients(rid, ings);
      InsertInstructions(rid, insts);
      AddRecipeKeepsValid(old(tables), old(nextId), x, ings, insts);
    }

    method InsertIngredients(rid: string, ings: seq<IngredientInput>)
      modifies this
      ensures tables == old(tables).(ingredients := old(tables).ingredients + IngredientRows(rid, old(nextId), ings))
      ensures nextId == old(nextId) + |ings|
    {
      ghost var rows := IngredientRows(rid, nextId, ings);
      var i := 0;
      while i < |ings|
        invariant 0 <= i <= |ings| && nextId == old(nextId) + i
        invariant tables == old(tables).(ingredients := old(tables).ingredients + rows[..i])
      {
        var ing := ings[i];
        var id := GenerateId();
        tables := tables.(ingredients := tables.ingredients
          + [IngredientRow(id, rid, ing.name, ing.quantity, ing.unit, ing.notes, ing.sortOrder)]);
        assert rows[..i + 1] == rows[..i] + [rows[i]];
        i := i + 1;
      }
      assert rows[..i] == rows;
    }

    method InsertInstructions(rid: string, insts: seq<InstructionInput>)
      modifies this
      ensures tables == old(tables).(instructions := old(tables).instructions + InstructionRows(rid, old(nextId), insts))
      ensures nextId == old(nextId) + |insts|
    {
      ghost var rows := InstructionRows(rid, nextId, insts);
      var i := 0;
      while i < |insts|
        invariant 0 <= i <= |insts| && nextId == old(nextId) + i
        invariant tables == old(tables).(instructions := old(tables).instructions + rows[..i])
      {
        var inst := insts[i];
        var id := GenerateId();
        tables := tables.(instructions := tables.instructions
          + [InstructionRow(id, rid, inst.stepNumber, inst.instruction)]);
        assert rows[..i + 1] == rows[..i] + [rows[i]];
        i := i + 1;
      }
      assert rows[..i] == rows;
    }

    /** `deleteRecipe`: the recipe row, and through the cascade its ingredients and instructions. */
    method DeleteRecipe(id: string)
      requires Valid()
      modifies this
      ensures Valid()
      ensures tables == DeleteRecipeRows(old(tables), id) && nextId == old(nextId)
    {
      tables := tables.(recipes := Where(tables.recipes, RecipeIsNot(id)));
      tables := tables.(ingredients := Where(tables.ingredients, IngredientNotIn(id)),
                        instructions := Where(tables.instructions, InstructionNotIn(id)));
      DeleteRecipeKeepsValid(old(tables), nextId, id);
    }

    /** `getShoppingList`. */
    method GetShoppingList() returns (items: seq<ShoppingItem>)
      ensures items == ShoppingView(tables)
    {
      var rows := NewestFirst(tables.shopping);
      items := seq(|rows|, i requires 0 <= i < |rows| => DecodeShopping(rows[i]));
    }

    /** `addToShoppingList`. */
    method AddToShoppingList(item: ShoppingInput) returns (id: string)
      requires Valid()
      modifies this
      ensures Valid()
      ensures id == IdText(old(nextId)) && nextId == old(nextId) + 1
      ensures tables == old(tables).(shopping := old(tables).shopping + [ShoppingRowOf(id, item)])
    {
      id := GenerateId();
      tables := tables.(shopping := tables.shopping
        + [ShoppingRow(id, item.ingredientName, item.quantity, item.unit, 0, item.recipeId)]);
      AddToShoppingKeepsValid(old(tables), old(nextId), item);
    }

    /** `toggleShoppingItem`. */
    method ToggleShoppingItem(id: string)
      requires Valid()
      modifies this
      ensures Valid()
      ensures tables == old(tables).(shopping := ToggleShopping(old(tables).shopping, id))
      ensures nextId == old(nextId)
    {
      tables := tables.(shopping := ToggleShopping(tables.shopping, id));
      ToggleShoppingKeepsValid(old(tables), nextId, id);
    }

    /** `removeShoppingItem`. */
    method RemoveShoppingItem(id: string)
      requires Valid()
      modifies this
      ensures Valid()
      ensures tables == old(tables).(shopping := Where(old(tables).shopping, ShoppingIsNot(id)))
      ensures nextId == old(nextId)
    {
      tables := tables.(shopping := Where(tables.shopping, ShoppingIsNot(id)));
      RemoveShoppingKeepsValid(old(tables), nextId, id);
    }

    /** `clearShoppingList`. */
    method ClearShoppingList()
      requires Valid()
      modifies this
      ensures Valid()
      ensures tables == old(tables).(shopping := []) && nextId == old(nextId)
    {
      tables := tables.(shopping := []);
    }

    /** `addRecipeToShoppingList`: one `addToShoppingList` per ingredient of the recipe, in table order. */
    method AddRecipeToShoppingList(rid: string)
      requires Valid()
      modifies this
      ensures Valid()
      ensures tables == old(tables).(shopping := old(tables).shopping
                                      + ShoppingRows(old(nextId), RecipeEntries(old(tables), rid)))
      ensures nextId == old(nextId) + |RecipeEntries(old(tables), rid)|
    {
      var ings := Where(tables.ingredients, IngredientIn(rid));
      var entries := seq(|ings|, i requires 0 <= i < |ings| => IngredientEntry(rid, ings[i]));
      AddShoppingEntries(entries);
    }

    /** One `addToShoppingList` per entry, in order. */
    method AddShoppingEntries(entries: seq<ShoppingInput>)
      requires Valid()
      modifies this
      ensures Valid()
      ensures tables == old(tables).(shopping := old(tables).shopping + ShoppingRows(old(nextId), entries))
      ensures nextId == old(nextId) + |entries|
    {
      var i := 0;
      while i < |entries|
        invariant 0 <= i <= |entries| && nextId == old(nextId) + i && Valid()
        invariant tables == old(tables).(shopping := old(tables).shopping + ShoppingRows(old(nextId), entries[..i]))
      {
        var _ := AddToShoppingList(entries[i]);
        assert entries[..i + 1][..i] == entries[..i];
        i := i + 1;
      }
      assert entries[..i] == entries;
    }
  }
}
