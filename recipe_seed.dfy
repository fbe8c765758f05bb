/**
 * The recipe app's seed exporter (`generateRecipeSeed`): one recipe with its ingredients and
 * instructions, already fetched, becomes a SQL script of `INSERT OR REPLACE` statements.
 */
module RecipeSeed {
  import opened Wrappers
  import Decimal
  import opened SqlLiteral

  // ---- Query results (columns as D1 returns them) ----

  datatype RecipeRecord = RecipeRecord(
    id: string, title: string, description: Option<string>, imageUrl: Option<string>, author: Option<string>,
    authorUrl: Option<string>, prepTime: Option<string>, cookTime: Option<string>, totalTime: Option<string>,
    servings: Option<int>, sourceUrl: Option<string>)

  datatype IngredientRecord = IngredientRecord(
    id: string, recipeId: string, name: Option<string>, quantity: Option<string>, unit: Option<string>,
    notes: Option<string>, sortOrder: int)

  datatype InstructionRecord = InstructionRecord(
    id: string, recipeId: string, stepNumber: int, instruction: Option<string>, imageUrls: Option<string>)

  function IngredientTuple(ing: IngredientRecord): seq<SqlValue> {
    [Text(Some(ing.id)), Text(Some(ing.recipeId)), Text(ing.name), Text(ing.quantity), Text(ing.unit),
     Text(ing.notes), Number(ing.sortOrder)]
  }

  function InstructionTuple(inst: InstructionRecord): seq<SqlValue> {
    [Text(Some(inst.id)), Text(Some(inst.recipeId)), Number(inst.stepNumber), Text(inst.instruction),
     Text(inst.imageUrls)]
  }

  function IngredientRows(ings: seq<IngredientRecord>): seq<seq<SqlValue>> {
    seq(|ings|, i requires 0 <= i < |ings| => IngredientTuple(ings[i]))
  }

  function InstructionRows(insts: seq<InstructionRecord>): seq<seq<SqlValue>> {
    seq(|insts|, i requires 0 <= i < |insts| => InstructionTuple(insts[i]))
  }

  /**
   * `${recipe.servings || 'NULL'}`: servings are written unquoted, and both a missing value and 0
   * (falsy) become NULL; any other count reads back as that number.
   */
  function ServingsText(servings: Option<int>): (r: string)
    ensures r == "NULL" <==> servings.None? || servings.value == 0
    ensures servings.Some? && servings.value != 0 ==> LexSqlValue(r + ",") == Some((Number(servings.value), ","))
  {
    if servings.None? || servings.value == 0 then "NULL"
    else
      var text := Decimal.IntToString(servings.value);
      LexNumberText(servings.value, ",");
      assert text[0] != 'N';
      text
  }

  function HeaderLines(exportedAt: string, r: RecipeRecord): seq<string> {
    [ "-- Seed data for Recipe App",
      "-- Exported from database: " + exportedAt,
      "-- Recipe: " + r.title,
      "",
      "-- Recipe",
      "INSERT OR REPLACE INTO recipes (id, title, description, image_url, author, author_url, prep_time, cook_time, total_time, servings, source_url)",
      "VALUES (",
      "  " + EscapeSql(Some(r.id)) + ",",
      "  " + EscapeSql(Some(r.title)) + ",",
      "  " + EscapeSql(r.description) + ",",
      "  " + EscapeSql(r.imageUrl) + ",",
      "  " + EscapeSql(r.author) + ",",
      "  " + EscapeSql(r.authorUrl) + ",",
      "  " + EscapeSql(r.prepTime) + ",",
      "  " + EscapeSql(r.cookTime) + ",",
      "  " + EscapeSql(r.totalTime) + ",",
      "  " + ServingsText(r.servings) + ",",
      "  " + EscapeSql(r.sourceUrl),
      ");",
      "" ]
  }

  const IngredientInsert := "INSERT OR REPLACE INTO ingredients (id, recipe_id, name, quantity, unit, notes, sort_order) VALUES"
  const InstructionInsert := "INSERT OR REPLACE INTO instructions (id, recipe_id, step_number, instruction, image_urls) VALUES"

  /** The script as a list of lines: the recipe, then the ingredients and instructions sections. */
  function SeedLines(
    exportedAt: string, r: RecipeRecord, ingredients: seq<IngredientRecord>, instructions: seq<InstructionRecord>)
    : seq<string>
  {
    HeaderLines(exportedAt, r)
    + Section("-- Ingredients", IngredientInsert, IngredientRows(ingredients))
    + Section("-- Instructions", InstructionInsert, InstructionRows(instructions))
  }

  /** The line array of the script: the header literal, then one push per non-empty section. */
  method BuildSeedLines(
    exportedAt: string, recipe: RecipeRecord, ingredients: seq<IngredientRecord>, instructions: seq<InstructionRecord>)
    returns (lines: seq<string>)
    ensures lines == SeedLines(exportedAt, recipe, ingredients, instructions)
  {
    lines := HeaderLines(exportedAt, recipe);
    lines := PushSection(lines, "-- Ingredients", IngredientInsert, IngredientRows(ingredients));
    lines := PushSection(lines, "-- Instructions", InstructionInsert, InstructionRows(instructions));
  }

  /** `generateRecipeSeed`: an empty lookup result ends the script with "Recipe not found". */
  method GenerateRecipeSeed(
    recipeId: string, exportedAt: string, recipes: seq<RecipeRecord>,
    ingredients: seq<IngredientRecord>, instructions: seq<InstructionRecord>)
    returns (r: Result<string, string>)
    ensures |recipes| == 0 ==> r == Err("Recipe not found: " + recipeId)
    ensures |recipes| > 0 ==> r == Ok(Join(SeedLines(exportedAt, recipes[0], ingredients, instructions), "\n"))
  {
    if |recipes| == 0 {
      return Err("Recipe not found: " + recipeId);
    }
    var lines := BuildSeedLines(exportedAt, recipes[0], ingredients, instructions);
    r := Ok(Join(lines, "\n"));
  }

  /** Every ingredient and instruction value line carries exactly its row. */
  lemma BlocksCarryRows(ingredients: seq<IngredientRecord>, instructions: seq<InstructionRecord>)
    ensures forall i :: 0 <= i < |ingredients| ==>
      ParseRow(BlockLines(IngredientRows(ingredients))[i]) == Some((IngredientTuple(ingredients[i]), Terminator(i, |ingredients|)))
    ensures forall i :: 0 <= i < |instructions| ==>
      ParseRow(BlockLines(InstructionRows(instructions))[i]) == Some((InstructionTuple(instructions[i]), Terminator(i, |instructions|)))
  {
    BlockLinesCarryRows(IngredientRows(ingredients));
    BlockLinesCarryRows(InstructionRows(instructions));
  }
}
