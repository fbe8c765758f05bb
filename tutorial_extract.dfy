/**
 * The DIY-tutorial extraction client's response handling: the HTTP outcome of a call to the
 * extraction service becomes `{success, data?, error?}`, and a loosely typed payload becomes an
 * `ExtractedTutorial` in which missing or falsy fields take defaults through `||`.
 * The request itself (fetch, headers, schema text) is not modelled: the response is an input.
 */
module TutorialExtract {
  import opened Wrappers
  import opened JsValue
  import Decimal
  import opened ExtractResponse

  datatype MaterialItem = MaterialItem(item: JsonValue, quantity: JsonValue, notes: JsonValue, purchaseUrl: JsonValue)

  datatype HelpfulLink = HelpfulLink(title: JsonValue, url: JsonValue, linkType: JsonValue)

  datatype TutorialStep = TutorialStep(
    stepNumber: JsonValue,
    title: JsonValue,
    instructions: JsonValue,
    tips: JsonValue,
    imageUrls: JsonValue,
    helpfulLinks: seq<HelpfulLink>)

  datatype ExtractedTutorial = ExtractedTutorial(
    title: JsonValue,
    overview: JsonValue,
    imageUrl: JsonValue,
    difficulty: JsonValue,
    estimatedTime: JsonValue,
    materialsAndTools: seq<MaterialItem>,
    steps: seq<TutorialStep>,
    tags: JsonValue)

  /** `RefyneResponse` of the DIY client. */
  type RefyneResponse = Response<ExtractedTutorial>

  // ---- Shapes that normalise without throwing (an independent description of the throw paths) ----

  predicate WellShapedStep(step: JsonValue) {
    !Nullish(step) && NoNullishElements(Field(step, "helpful_links"))
  }

  predicate WellShapedSteps(v: JsonValue) {
    !Truthy(v) || (v.Arr? && forall i :: 0 <= i < |v.elems| ==> WellShapedStep(v.elems[i]))
  }

  predicate WellShapedTutorial(x: JsonValue) {
    && !Nullish(x)
    && NoNullishElements(Field(x, "materials_and_tools"))
    && WellShapedSteps(Field(x, "steps"))
  }

  /** Every field a reader of an extracted tutorial needs is present (truthy). */
  predicate Complete(t: ExtractedTutorial) {
    && Truthy(t.title)
    && (forall i :: 0 <= i < |t.materialsAndTools| ==> Truthy(t.materialsAndTools[i].item))
    && (forall i :: 0 <= i < |t.steps| ==>
          Truthy(t.steps[i].stepNumber) && Truthy(t.steps[i].title) && Truthy(t.steps[i].imageUrls)
          && forall j :: 0 <= j < |t.steps[i].helpfulLinks| ==>
               Truthy(t.steps[i].helpfulLinks[j].title) && Truthy(t.steps[i].helpfulLinks[j].linkType))
  }

  // ---- The normaliser ----

  function NormalizeLink(link: JsonValue, idx: nat): (r: Result<HelpfulLink, Fault>)
    ensures r.Ok? <==> !Nullish(link)
    ensures r.Ok? ==> Truthy(r.value.title) && Truthy(r.value.linkType)
    ensures r.Ok? ==>
      && r.value.title == Or(Field(link, "title"), Str("Helpful Resource"))
      && r.value.url == Or(Field(link, "url"), Str(""))
      && r.value.linkType == Or(Field(link, "type"), Str("reference"))
  {
    if Nullish(link) then Err(ReadOfNullish("title"))
    else
      Ok(HelpfulLink(
        Or(Field(link, "title"), Str("Helpful Resource")),
        Or(Field(link, "url"), Str("")),
        Or(Field(link, "type"), Str("reference"))))
  }

  function NormalizeMaterial(mat: JsonValue, idx: nat): (r: Result<MaterialItem, Fault>)
    ensures r.Ok? <==> !Nullish(mat)
    ensures r.Ok? ==> Truthy(r.value.item)
    ensures r.Ok? ==>
      && r.value.item == Or(Field(mat, "item"), Str("Item " + Decimal.NatToString(idx + 1)))
      && r.value.quantity == Field(mat, "quantity")
      && r.value.notes == Field(mat, "notes")
      && r.value.purchaseUrl == Field(mat, "purchase_url")
  {
    if Nullish(mat) then Err(ReadOfNullish("item"))
    else
      Ok(MaterialItem(
        Or(Field(mat, "item"), Str("Item " + Decimal.NatToString(idx + 1))),
        Field(mat, "quantity"),
        Field(mat, "notes"),
        Field(mat, "purchase_url")))
  }

  function NormalizeStep(step: JsonValue, idx: nat): (r: Result<TutorialStep, Fault>)
    ensures r.Ok? <==> WellShapedStep(step)
    ensures r.Ok? ==> Truthy(r.value.stepNumber) && Truthy(r.value.title) && Truthy(r.value.imageUrls)
    ensures r.Ok? ==>
      && r.value.stepNumber == Or(Field(step, "step_number"), Position(idx))
      && r.value.title == Or(Field(step, "title"), Str("Step " + Decimal.NatToString(idx + 1)))
      && r.value.instructions == Or(Field(step, "instructions"), Str(""))
      && r.value.tips == Field(step, "tips")
      && r.value.imageUrls == Or(Field(step, "image_urls"), Arr([]))
      && var links := Field(step, "helpful_links");
         (!Truthy(links) ==> r.value.helpfulLinks == [])
         && (Truthy(links) ==>
               |r.value.helpfulLinks| == |links.elems|
               && forall j :: 0 <= j < |links.elems| ==> Ok(r.value.helpfulLinks[j]) == NormalizeLink(links.elems[j], j))
  {
    if Nullish(step) then Err(ReadOfNullish("step_number"))
    else
      var links :- ElementsOrEmpty(Field(step, "helpful_links"), "helpful_links");
      var helpfulLinks :- MapIndexed(links, NormalizeLink);
      Ok(TutorialStep(
        Or(Field(step, "step_number"), Position(idx)),
        Or(Field(step, "title"), Str("Step " + Decimal.NatToString(idx + 1))),
        Or(Field(step, "instructions"), Str("")),
        Field(step, "tips"),
        Or(Field(step, "image_urls"), Arr([])),
        helpfulLinks))
  }

  /** The object literal built from `extracted` (lines 193-218 of the DIY client). */
  function NormalizeTutorial(extracted: JsonValue): (r: Result<ExtractedTutorial, Fault>)
    ensures r.Ok? <==> WellShapedTutorial(extracted)
    ensures r.Ok? ==>
      && r.value.title == Or(Field(extracted, "title"), Str("Untitled Tutorial"))
      && r.value.overview == Or(Field(extracted, "overview"), Str(""))
      && r.value.imageUrl == Field(extracted, "image_url")
      && r.value.difficulty == Field(extracted, "difficulty")
      && r.value.estimatedTime == Field(extracted, "estimated_time")
      && r.value.tags == Field(extracted, "tags")
    ensures r.Ok? ==>
      var mats := Field(extracted, "materials_and_tools");
      (!Truthy(mats) ==> r.value.materialsAndTools == [])
      && (Truthy(mats) ==>
            |r.value.materialsAndTools| == |mats.elems|
            && forall i :: 0 <= i < |mats.elems| ==> Ok(r.value.materialsAndTools[i]) == NormalizeMaterial(mats.elems[i], i))
    ensures r.Ok? ==>
      var steps := Field(extracted, "steps");
      (!Truthy(steps) ==> r.value.steps == [])
      && (Truthy(steps) ==>
            |r.value.steps| == |steps.elems|
            && forall i :: 0 <= i < |steps.elems| ==> Ok(r.value.steps[i]) == NormalizeStep(steps.elems[i], i))
  {
    if Nullish(extracted) then Err(ReadOfNullish("title"))
    else
      var mats :- ElementsOrEmpty(Field(extracted, "materials_and_tools"), "materials_and_tools");
      var materials :- MapIndexed(mats, NormalizeMaterial);
      var stepElems :- ElementsOrEmpty(Field(extracted, "steps"), "steps");
      var steps :- MapIndexed(stepElems, NormalizeStep);
      Ok(ExtractedTutorial(
        Or(Field(extracted, "title"), Str("Untitled Tutorial")),
        Or(Field(extracted, "overview"), Str("")),
        Field(extracted, "image_url"),
        Field(extracted, "difficulty"),
        Field(extracted, "estimated_time"),
        materials,
        steps,
        Field(extracted, "tags")))
  }

  // ---- Response mapping ----

  /**
   * `extractTutorial` after the request. It succeeds exactly when the call succeeded, the body
   * carries no error, and the payload has a shape the normaliser does not throw on.
   */
  function ExtractTutorial(resp: HttpResponse, describe: Fault -> string): (r: RefyneResponse)
    ensures r.Extracted? <==>
      && resp.ok && resp.body.Some? && !Nullish(resp.body.value)
      && !Truthy(Field(resp.body.value, "error"))
      && WellShapedTutorial(Payload(resp.body.value))
    ensures r.Extracted? ==> NormalizeTutorial(Payload(resp.body.value)) == Ok(r.data)
  {
    Respond(resp, NormalizeTutorial, describe)
  }

  // ---- Properties ----

  /** N steps that carry no step number are numbered 1..N, in input order. */
  lemma UnnumberedStepsCountFromOne(extracted: JsonValue)
    requires WellShapedTutorial(extracted)
    requires var steps := Field(extracted, "steps");
      steps.Arr? && forall i :: 0 <= i < |steps.elems| ==> !Truthy(Field(steps.elems[i], "step_number"))
    ensures var t := NormalizeTutorial(extracted).value;
      |t.steps| == |Field(extracted, "steps").elems|
      && forall i :: 0 <= i < |t.steps| ==> t.steps[i].stepNumber == Num((i + 1) as real)
  {
    var steps := Field(extracted, "steps");
    var t := NormalizeTutorial(extracted).value;
    forall i | 0 <= i < |t.steps|
      ensures t.steps[i].stepNumber == Num((i + 1) as real)
    {
      assert Ok(t.steps[i]) == NormalizeStep(steps.elems[i], i);
    }
  }

  /** Whatever the payload lacks, a tutorial that normalises has every field its readers need. */
  lemma NormalizedTutorialComplete(extracted: JsonValue)
    requires WellShapedTutorial(extracted)
    ensures Complete(NormalizeTutorial(extracted).value)
  {
    var t := NormalizeTutorial(extracted).value;
    var mats := Field(extracted, "materials_and_tools");
    var steps := Field(extracted, "steps");
    forall i | 0 <= i < |t.materialsAndTools|
      ensures Truthy(t.materialsAndTools[i].item)
    {
      assert Ok(t.materialsAndTools[i]) == NormalizeMaterial(mats.elems[i], i);
    }
    forall i | 0 <= i < |t.steps|
      ensures Truthy(t.steps[i].stepNumber) && Truthy(t.steps[i].title) && Truthy(t.steps[i].imageUrls)
      ensures forall j :: 0 <= j < |t.steps[i].helpfulLinks| ==>
                Truthy(t.steps[i].helpfulLinks[j].title) && Truthy(t.steps[i].helpfulLinks[j].linkType)
    {
      assert Ok(t.steps[i]) == NormalizeStep(steps.elems[i], i);
      var links := Field(steps.elems[i], "helpful_links");
      forall j | 0 <= j < |t.steps[i].helpfulLinks|
        ensures Truthy(t.steps[i].helpfulLinks[j].title) && Truthy(t.steps[i].helpfulLinks[j].linkType)
      {
        assert Ok(t.steps[i].helpfulLinks[j]) == NormalizeLink(links.elems[j], j);
      }
    }
  }

  /** A step holding only instructions takes every default, numbered by its position. */
  lemma InstructionOnlyStep()
    ensures NormalizeStep(Obj(map["instructions" := Str("Cut the board")]), 0)
      == Ok(TutorialStep(Num(1.0), Str("Step 1"), Str("Cut the board"), Undefined, Arr([]), []))
  {
    var step := Obj(map["instructions" := Str("Cut the board")]);
    assert Decimal.NatToString(1) == "1";
    assert "Step " + Decimal.NatToString(0 + 1) == "Step 1";
    assert step.fields.Keys == {"instructions"};
    assert Field(step, "step_number") == Undefined;
    assert Field(step, "title") == Undefined;
    assert Field(step, "tips") == Undefined;
    assert Field(step, "image_urls") == Undefined;
    assert Field(step, "helpful_links") == Undefined;
    assert Field(step, "instructions") == Str("Cut the board");
  }

  /** A body without materials whose steps normalise to `steps` normalises field by field. */
  lemma TutorialWithoutMaterials(body: JsonValue, steps: seq<TutorialStep>)
    requires !Nullish(body) && !Truthy(Field(body, "materials_and_tools"))
    requires Field(body, "steps").Arr? && MapIndexed(Field(body, "steps").elems, NormalizeStep) == Ok(steps)
    ensures NormalizeTutorial(body)
              == Ok(ExtractedTutorial(Or(Field(body, "title"), Str("Untitled Tutorial")), Or(Field(body, "overview"), Str("")),
                                      Field(body, "image_url"), Field(body, "difficulty"), Field(body, "estimated_time"),
                                      [], steps, Field(body, "tags")))
  {
    assert ElementsOrEmpty(Field(body, "materials_and_tools"), "materials_and_tools") == Ok([]);
    assert MapIndexed([], NormalizeMaterial) == Ok([]);
    assert ElementsOrEmpty(Field(body, "steps"), "steps") == Ok(Field(body, "steps").elems);
  }

  /** A body with one step holding only instructions normalises to a single, fully defaulted step. */
  lemma SingleInstructionStep()
    ensures var body := Obj(map["steps" := Arr([Obj(map["instructions" := Str("Cut the board")])])]);
      NormalizeTutorial(body) == Ok(ExtractedTutorial(
        Str("Untitled Tutorial"), Str(""), Undefined, Undefined, Undefined, [],
        [TutorialStep(Num(1.0), Str("Step 1"), Str("Cut the board"), Undefined, Arr([]), [])],
        Undefined))
  {
    var step := Obj(map["instructions" := Str("Cut the board")]);
    var body := Obj(map["steps" := Arr([step])]);
    var expected := TutorialStep(Num(1.0), Str("Step 1"), Str("Cut the board"), Undefined, Arr([]), []);
    InstructionOnlyStep();
    var mapped := MapIndexed([step], NormalizeStep);
    assert mapped.Ok? && |mapped.value| == 1 && mapped.value[0] == expected;
    assert mapped.value == [expected];
    assert body.fields.Keys == {"steps"};
    assert Field(body, "materials_and_tools") == Undefined;
    assert Field(body, "title") == Undefined && Field(body, "overview") == Undefined;
    assert Field(body, "image_url") == Undefined && Field(body, "difficulty") == Undefined;
    assert Field(body, "estimated_time") == Undefined && Field(body, "tags") == Undefined;
    assert Field(body, "steps") == Arr([step]);
    TutorialWithoutMaterials(body, [expected]);
  }
}
