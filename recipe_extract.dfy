/**
 * The recipe extraction client's response handling: a loosely typed payload becomes an
 * `ExtractedRecipe`, with `||` defaults for the title, ingredient names and instruction steps.
 * The request itself (fetch, headers, schema text) is not modelled: the response is an input.
 */
module RecipeExtract {
  import opened Wrappers
  import opened JsValue
  import Decimal
  import opened ExtractResponse

  datatype Ingredient = Ingredient(name: JsonValue, quantity: JsonValue, unit: JsonValue, notes: JsonValue)

  datatype Instruction = Instruction(step: JsonValue, text: JsonValue)

  datatype ExtractedRecipe = ExtractedRecipe(
    title: JsonValue,
    description: JsonValue,
    imageUrl: JsonValue,
    prepTime: JsonValue,
    cookTime: JsonValue,
    totalTime: JsonValue,
    servings: JsonValue,
    ingredients: seq<Ingredient>,
    instructions: seq<Instruction>,
    nutrition: JsonValue,
    tags: JsonValue)

  /** `RefyneResponse` of the recipe client. */
  type RefyneResponse = Response<ExtractedRecipe>

  /** The payloads the normaliser does not throw on. */
  predicate WellShapedRecipe(x: JsonValue) {
    && !Nullish(x)
    && NoNullishElements(Field(x, "ingredients"))
    && NoNullishElements(Field(x, "instructions"))
  }

  function NormalizeIngredient(ing: JsonValue, idx: nat): (r: Result<Ingredient, Fault>)
    ensures r.Ok? <==> !Nullish(ing)
    ensures r.Ok? ==> Truthy(r.value.name)
    ensures r.Ok? ==>
      && r.value.name == Or(Field(ing, "name"), Str("Ingredient " + Decimal.NatToString(idx + 1)))
      && r.value.quantity == Field(ing, "quantity")
      && r.value.unit == Field(ing, "unit")
      && r.value.notes == Field(ing, "notes")
  {
    if Nullish(ing) then Err(ReadOfNullish("name"))
    else
      Ok(Ingredient(
        Or(Field(ing, "name"), Str("Ingredient " + Decimal.NatToString(idx + 1))),
        Field(ing, "quantity"),
        Field(ing, "unit"),
        Field(ing, "notes")))
  }

  function NormalizeInstruction(inst: JsonValue, idx: nat): (r: Result<Instruction, Fault>)
    ensures r.Ok? <==> !Nullish(inst)
    ensures r.Ok? ==> Truthy(r.value.step)
    ensures r.Ok? ==>
      && r.value.step == Or(Field(inst, "step"), Position(idx))
      && r.value.text == Or(Field(inst, "text"), inst)
  {
    if Nullish(inst) then Err(ReadOfNullish("step"))
    else Ok(Instruction(Or(Field(inst, "step"), Position(idx)), Or(Field(inst, "text"), inst)))
  }

  /** The object literal built from `extracted` (lines 165-185 of the recipe client). */
  function NormalizeRecipe(extracted: JsonValue): (r: Result<ExtractedRecipe, Fault>)
    ensures r.Ok? <==> WellShapedRecipe(extracted)
    ensures r.Ok? ==>
      && r.value.title == Or(Field(extracted, "title"), Str("Untitled Recipe"))
      && Truthy(r.value.title)
      && r.value.description == Field(extracted, "description")
      && r.value.imageUrl == Field(extracted, "image_url")
      && r.value.prepTime == Field(extracted, "prep_time")
      && r.value.cookTime == Field(extracted, "cook_time")
      && r.value.totalTime == Field(extracted, "total_time")
      && r.value.servings == Field(extracted, "servings")
      && r.value.nutrition == Field(extracted, "nutrition")
      && r.value.tags == Field(extracted, "tags")
    ensures r.Ok? ==>
      var ings := Field(extracted, "ingredients");
      (!Truthy(ings) ==> r.value.ingredients == [])
      && (Truthy(ings) ==>
            |r.value.ingredients| == |ings.elems|
            && forall i :: 0 <= i < |ings.elems| ==> Ok(r.value.ingredients[i]) == NormalizeIngredient(ings.elems[i], i))
    ensures r.Ok? ==>
      var insts := Field(extracted, "instructions");
      (!Truthy(insts) ==> r.value.instructions == [])
      && (Truthy(insts) ==>
            |r.value.instructions| == |insts.elems|
            && forall i :: 0 <= i < |insts.elems| ==> Ok(r.value.instructions[i]) == NormalizeInstruction(insts.elems[i], i))
  {
    if Nullish(extracted) then Err(ReadOfNullish("title"))
    else
      var ings :- ElementsOrEmpty(Field(extracted, "ingredients"), "ingredients");
      var ingredients :- MapIndexed(ings, NormalizeIngredient);
      var insts :- ElementsOrEmpty(Field(extracted, "instructions"), "instructions");
      var instructions :- MapIndexed(insts, NormalizeInstruction);
      Ok(ExtractedRecipe(
        Or(Field(extracted, "title"), Str("Untitled Recipe")),
        Field(extracted, "description"),
        Field(extracted, "image_url"),
        Field(extracted, "prep_time"),
        Field(extracted, "cook_time"),
        Field(extracted, "total_time"),
        Field(extracted, "servings"),
        ingredients,
        instructions,
        Field(extracted, "nutrition"),
        Field(extracted, "tags")))
  }

  /**
   * `extractRecipe` after the request. It succeeds exactly when the call succeeded, the body
   * carries no error, and the payload has a shape the normaliser does not throw on.
   */
  function ExtractRecipe(resp: HttpResponse, describe: Fault -> string): (r: RefyneResponse)
    ensures r.Extracted? <==>
      && resp.ok && resp.body.Some? && !Nullish(resp.body.value)
      && !Truthy(Field(resp.body.value, "error"))
      && WellShapedRecipe(Payload(resp.body.value))
    ensures r.Extracted? ==> NormalizeRecipe(Payload(resp.body.value)) == Ok(r.data)
  {
    Respond(resp, NormalizeRecipe, describe)
  }

  // ---- Properties ----

  /**
   * A list of bare strings normalises to instructions numbered 1..N whose text is the string
   * itself: a string has no `text` property, so `inst.text || inst` falls back to the element.
   */
  lemma {:induction false} BareStringInstructions(extracted: JsonValue)
    requires WellShapedRecipe(extracted)
    requires var insts := Field(extracted, "instructions");
      insts.Arr? && forall i :: 0 <= i < |insts.elems| ==> insts.elems[i].Str?
    ensures var r := NormalizeRecipe(extracted).value;
      var insts := Field(extracted, "instructions").elems;
      |r.instructions| == |insts|
      && forall i :: 0 <= i < |insts| ==> r.instructions[i] == Instruction(Position(i), insts[i])
  {
    var insts := Field(extracted, "instructions").elems;
    var r := NormalizeRecipe(extracted).value;
    forall i | 0 <= i < |insts|
      ensures r.instructions[i] == Instruction(Position(i), insts[i])
    {
      assert Ok(r.instructions[i]) == NormalizeInstruction(insts[i], i);
    }
  }
}
