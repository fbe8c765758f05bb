/**
 * The recipe app's tables as its database layer writes and reads them: stored rows, the inputs
 * `addRecipe` and `addToShoppingList` accept, the views the read functions return, and the writes
 * as functions from tables to tables (ids drawn from a counter in call order).
 */
module RecipeRows {
  import opened Wrappers
  import opened Table

  // ---- Stored rows (`created_at` is represented by table order) ----

  datatype RecipeRow = RecipeRow(
    id: string, title: string, description: Option<string>, imageUrl: Option<string>,
    prepTime: Option<string>, cookTime: Option<string>, totalTime: Option<string>,
    servings: Option<int>, sourceUrl: Option<string>)

  datatype IngredientRow = IngredientRow(
    id: string, recipeId: string, name: string, quantity: Option<string>, unit: Option<string>,
    notes: Option<string>, sortOrder: int)

  datatype InstructionRow = InstructionRow(id: string, recipeId: string, stepNumber: int, instruction: string)

  datatype ShoppingRow = ShoppingRow(
    id: string, ingredientName: string, quantity: Option<string>, unit: Option<string>, checked: int,
    recipeId: Option<string>)

  datatype RecipeTables = RecipeTables(
    recipes: seq<RecipeRow>, ingredients: seq<IngredientRow>, instructions: seq<InstructionRow>,
    shopping: seq<ShoppingRow>)

  const NoRecipeTables := RecipeTables([], [], [], [])

  // ---- Inputs ----

  datatype RecipeInput = RecipeInput(
    title: string, description: Option<string>, imageUrl: Option<string>, prepTime: Option<string>,
    cookTime: Option<string>, totalTime: Option<string>, servings: Option<int>, sourceUrl: Option<string>)

  datatype IngredientInput = IngredientInput(
    name: string, quantity: Option<string>, unit: Option<string>, notes: Option<string>, sortOrder: int)

  datatype InstructionInput = InstructionInput(stepNumber: int, instruction: string)

  datatype ShoppingInput = ShoppingInput(
    ingredientName: string, quantity: Option<string>, unit: Option<string>, recipeId: Option<string>)

  // ---- Views ----

  datatype RecipeView = RecipeView(
    recipe: RecipeRow, ingredients: seq<IngredientRow>, instructions: seq<InstructionRow>)

  datatype ShoppingItem = ShoppingItem(
    id: string, ingredientName: string, quantity: Option<string>, unit: Option<string>, checked: bool,
    recipeId: Option<string>)

  // ---- Selectors and sort keys ----

  function RecipeIs(id: string): RecipeRow -> bool { (r: RecipeRow) => r.id == id }
  function RecipeIsNot(id: string): RecipeRow -> bool { (r: RecipeRow) => r.id != id }
  function IngredientIn(rid: string): IngredientRow -> bool { (r: IngredientRow) => r.recipeId == rid }
  function IngredientNotIn(rid: string): IngredientRow -> bool { (r: IngredientRow) => r.recipeId != rid }
  function InstructionIn(rid: string): InstructionRow -> bool { (r: InstructionRow) => r.recipeId == rid }
  function InstructionNotIn(rid: string): InstructionRow -> bool { (r: InstructionRow) => r.recipeId != rid }
  function ShoppingIsNot(id: string): ShoppingRow -> bool { (r: ShoppingRow) => r.id != id }

  function IngredientOrder(r: IngredientRow): int { r.sortOrder }
  function InstructionOrder(r: InstructionRow): int { r.stepNumber }

  // ---- Reads ----

  /** `getRecipes`: every recipe, newest first. */
  function RecipeList(t: RecipeTables): seq<RecipeRow> {
    NewestFirst(t.recipes)
  }

  function IngredientsOf(t: RecipeTables, rid: string): seq<IngredientRow> {
    SortBy(Where(t.ingredients, IngredientIn(rid)), IngredientOrder)
  }

  function InstructionsOf(t: RecipeTables, rid: string): seq<InstructionRow> {
    SortBy(Where(t.instructions, InstructionIn(rid)), InstructionOrder)
  }

  /** `getRecipeById`: None for an unknown id, else the recipe with its ingredients and instructions. */
  function RecipeDetails(t: RecipeTables, id: string): Option<RecipeView> {
    match FirstWhere(t.recipes, RecipeIs(id))
    case None => None
    case Some(r) => Some(RecipeView(r, IngredientsOf(t, id), InstructionsOf(t, id)))
  }

  /** `checked === 1`; every other column is passed through. */
  function DecodeShopping(r: ShoppingRow): ShoppingItem {
    ShoppingItem(r.id, r.ingredientName, r.quantity, r.unit, IsOne(r.checked), r.recipeId)
  }

  /** `getShoppingList`: every item, newest first, decoded. */
  function ShoppingView(t: RecipeTables): (r: seq<ShoppingItem>)
    ensures |r| == |t.shopping|
  {
    var rows := NewestFirst(t.shopping);
    seq(|rows|, i requires 0 <= i < |rows| => DecodeShopping(rows[i]))
  }

  // ---- Writes ----

  function RecipeRowOf(id: string, x: RecipeInput): RecipeRow {
    RecipeRow(id, x.title, x.description, x.imageUrl, x.prepTime, x.cookTime, x.totalTime, x.servings, x.sourceUrl)
  }

  /** The ingredient rows of `addRecipe`, ids from `base`, each with the caller's `sort_order`. */
  function IngredientRows(rid: string, base: nat, ings: seq<IngredientInput>): (r: seq<IngredientRow>)
    ensures |r| == |ings|
  {
    seq(|ings|, i requires 0 <= i < |ings| =>
      IngredientRow(IdText(base + i), rid, ings[i].name, ings[i].quantity, ings[i].unit, ings[i].notes,
                    ings[i].sortOrder))
  }

  /** The instruction rows of `addRecipe`, ids from `base`, each with the caller's `step_number`. */
  function InstructionRows(rid: string, base: nat, insts: seq<InstructionInput>): (r: seq<InstructionRow>)
    ensures |r| == |insts|
  {
    seq(|insts|, i requires 0 <= i < |insts| =>
      InstructionRow(IdText(base + i), rid, insts[i].stepNumber, insts[i].instruction))
  }

  /** `addRecipe` with the id counter at `n`: the recipe takes id n, its ingredients and instructions the ids after. */
  function AddRecipeRows(t: RecipeTables, n: nat, x: RecipeInput, ings: seq<IngredientInput>,
                         insts: seq<InstructionInput>): RecipeTables
  {
    var rid := IdText(n);
    t.(recipes := t.recipes + [RecipeRowOf(rid, x)],
       ingredients := t.ingredients + IngredientRows(rid, n + 1, ings),
       instructions := t.instructions + InstructionRows(rid, n + 1 + |ings|, insts))
  }

  /**
   * `deleteRecipe`: the recipe row, whose delete cascades to its ingredients and instructions;
   * the shopping list, which only copies from recipes, is not touched.
   */
  function DeleteRecipeRows(t: RecipeTables, id: string): RecipeTables {
    t.(recipes := Where(t.recipes, RecipeIsNot(id)),
       ingredients := Where(t.ingredients, IngredientNotIn(id)),
       instructions := Where(t.instructions, InstructionNotIn(id)))
  }

  /** The row `addToShoppingList` inserts; `checked` takes the column default 0. */
  function ShoppingRowOf(id: string, item: ShoppingInput): ShoppingRow {
    ShoppingRow(id, item.ingredientName, item.quantity, item.unit, 0, item.recipeId)
  }

  /** The rows one `addToShoppingList` per item inserts, ids from `base`. */
  function ShoppingRows(base: nat, items: seq<ShoppingInput>): (r: seq<ShoppingRow>)
    ensures |r| == |items|
    decreases |items|
  {
    if items == [] then []
    else
      var init := items[..|items| - 1];
      ShoppingRows(base, init) + [ShoppingRowOf(IdText(base + |init|), items[|items| - 1])]
  }

  /** `UPDATE shopping_list SET checked = NOT checked WHERE id = ?`. */
  function ToggleShopping(rows: seq<ShoppingRow>, id: string): (r: seq<ShoppingRow>)
    ensures |r| == |rows|
  {
    seq(|rows|, i requires 0 <= i < |rows| =>
      if rows[i].id == id then rows[i].(checked := SqlNot(rows[i].checked)) else rows[i])
  }

  /** The shopping entry copied from an ingredient: name, quantity and unit, not the notes. */
  function IngredientEntry(rid: string, r: IngredientRow): ShoppingInput {
    ShoppingInput(r.name, r.quantity, r.unit, Some(rid))
  }

  /** `SELECT * FROM ingredients WHERE recipe_id = ?`, in table order. */
  function ShoppingIngredients(t: RecipeTables, rid: string): seq<IngredientRow> {
    Where(t.ingredients, IngredientIn(rid))
  }

  /** The entries `addRecipeToShoppingList` adds, one per ingredient. */
  function RecipeEntries(t: RecipeTables, rid: string): (r: seq<ShoppingInput>)
    ensures |r| == |ShoppingIngredients(t, rid)|
  {
    var ings := ShoppingIngredients(t, rid);
    seq(|ings|, i requires 0 <= i < |ings| => IngredientEntry(rid, ings[i]))
  }

  // ---- The invariant the app's writes keep ----

  /** Every id and parent id was drawn from the counter before `n`; every `checked` flag is 0 or 1. */
  predicate RecipeTablesValid(t: RecipeTables, n: nat) {
    && (forall r :: r in t.recipes ==> Issued(r.id, n))
    && (forall r :: r in t.ingredients ==> Issued(r.id, n) && Issued(r.recipeId, n))
    && (forall r :: r in t.instructions ==> Issued(r.id, n) && Issued(r.recipeId, n))
    && (forall r :: r in t.shopping ==> Issued(r.id, n) && (r.checked == 0 || r.checked == 1))
  }
}
