/**
 * The DIY app's seed exporter (`generateTutorialSeed`): one tutorial and its child rows, already
 * fetched, become a SQL script of `INSERT OR REPLACE` statements. Which queries ran is modelled
 * only for the step images, whose query depends on the steps: `imagesFor` answers that query.
 */
module TutorialSeed {
  import opened Wrappers
  import opened SqlLiteral

  // ---- Query results (columns as D1 returns them) ----

  datatype TutorialRecord = TutorialRecord(
    id: string, title: string, overview: Option<string>, imageUrl: Option<string>, author: Option<string>,
    authorUrl: Option<string>, difficulty: Option<string>, estimatedTime: Option<string>, sourceUrl: Option<string>)

  datatype GlossaryRecord = GlossaryRecord(
    id: string, tutorialId: string, term: Option<string>, definition: Option<string>, context: Option<string>, sortOrder: int)

  datatype MaterialRecord = MaterialRecord(
    id: string, tutorialId: string, name: Option<string>, quantity: Option<string>, notes: Option<string>,
    measurementJson: Option<string>, sortOrder: int)

  datatype ToolRecord = ToolRecord(
    id: string, tutorialId: string, name: Option<string>, notes: Option<string>, required: int, sortOrder: int)

  datatype StepRecord = StepRecord(
    id: string, tutorialId: string, stepNumber: int, title: Option<string>, instructions: Option<string>,
    tips: Option<string>, measurementsJson: Option<string>)

  datatype StepImageRecord = StepImageRecord(id: string, stepId: string, imageUrl: Option<string>, sortOrder: int)

  // ---- One tuple per row, in the column order of each INSERT ----

  function GlossaryTuple(g: GlossaryRecord): seq<SqlValue> {
    [Text(Some(g.id)), Text(Some(g.tutorialId)), Text(g.term), Text(g.definition), Text(g.context), Number(g.sortOrder)]
  }

  function MaterialTuple(m: MaterialRecord): seq<SqlValue> {
    [Text(Some(m.id)), Text(Some(m.tutorialId)), Text(m.name), Text(m.quantity), Text(m.notes),
     Text(m.measurementJson), Number(m.sortOrder)]
  }

  function ToolTuple(t: ToolRecord): seq<SqlValue> {
    [Text(Some(t.id)), Text(Some(t.tutorialId)), Text(t.name), Text(t.notes), Number(t.required), Number(t.sortOrder)]
  }

  function StepTuple(s: StepRecord): seq<SqlValue> {
    [Text(Some(s.id)), Text(Some(s.tutorialId)), Number(s.stepNumber), Text(s.title), Text(s.instructions),
     Text(s.tips), Text(s.measurementsJson)]
  }

  function StepImageTuple(img: StepImageRecord): seq<SqlValue> {
    [Text(Some(img.id)), Text(Some(img.stepId)), Text(img.imageUrl), Number(img.sortOrder)]
  }

  function GlossaryRows(gs: seq<GlossaryRecord>): seq<seq<SqlValue>> {
    seq(|gs|, i requires 0 <= i < |gs| => GlossaryTuple(gs[i]))
  }

  function MaterialRows(ms: seq<MaterialRecord>): seq<seq<SqlValue>> {
    seq(|ms|, i requires 0 <= i < |ms| => MaterialTuple(ms[i]))
  }

  function ToolRows(ts: seq<ToolRecord>): seq<seq<SqlValue>> {
    seq(|ts|, i requires 0 <= i < |ts| => ToolTuple(ts[i]))
  }

  function StepRows(ss: seq<StepRecord>): seq<seq<SqlValue>> {
    seq(|ss|, i requires 0 <= i < |ss| => StepTuple(ss[i]))
  }

  function StepImageRows(imgs: seq<StepImageRecord>): seq<seq<SqlValue>> {
    seq(|imgs|, i requires 0 <= i < |imgs| => StepImageTuple(imgs[i]))
  }

  // ---- The step-image query ----

  /** The escaped ids of the steps, `steps.map(s => escapeSQL(s.id))`. */
  function StepIdValues(steps: seq<StepRecord>): seq<SqlValue> {
    seq(|steps|, i requires 0 <= i < |steps| => Text(Some(steps[i].id)))
  }

  const ImagesQueryHead := "SELECT * FROM step_images WHERE step_id IN ("
  const ImagesQueryOrder := " ORDER BY step_id, sort_order"

  function StepImagesQuery(steps: seq<StepRecord>): string {
    ImagesQueryHead + ValueList(StepIdValues(steps)) + ")" + ImagesQueryOrder
  }

  /** The joined id list is empty (falsy) exactly when there are no steps. */
  lemma StepIdListEmpty(steps: seq<StepRecord>)
    ensures ValueList(StepIdValues(steps)) == "" <==> steps == []
  {
    var ids := StepIdValues(steps);
    if steps != [] {
      RenderNotEmpty(ids[0]);
      if |ids| > 1 {
        assert |ValueList(ids)| >= |Render(ids[0])|;
      }
    }
  }

  /**
   * The IN list of the step-image query is read by SQL as exactly the step ids, in order: an id
   * holding quotes cannot end the list early.
   */
  lemma StepImagesQueryNamesSteps(steps: seq<StepRecord>)
    requires steps != []
    ensures var q := StepImagesQuery(steps);
      |q| > |ImagesQueryHead| && q[..|ImagesQueryHead|] == ImagesQueryHead
      && LexValues(q[|ImagesQueryHead|..]) == Some((StepIdValues(steps), ImagesQueryOrder))
  {
    var ids := StepIdValues(steps);
    var body := ValueList(ids) + ")" + ImagesQueryOrder;
    assert StepImagesQuery(steps) == ImagesQueryHead + body;
    LexValueList(ids, ImagesQueryOrder);
  }

  /** The step images the script exports: queried only when at least one step exists. */
  function StepImages(steps: seq<StepRecord>, imagesFor: string -> seq<StepImageRecord>): seq<StepImageRecord> {
    if steps == [] then [] else imagesFor(StepImagesQuery(steps))
  }

  // ---- The script ----

  function HeaderLines(exportedAt: string, t: TutorialRecord): seq<string> {
    [ "-- Seed data for DIY Viewer App",
      "-- Exported from database: " + exportedAt,
      "-- Tutorial: " + t.title,
      "",
      "-- Tutorial",
      "INSERT OR REPLACE INTO tutorials (id, title, overview, image_url, author, author_url, difficulty, estimated_time, source_url)",
      "VALUES (",
      "  " + EscapeSql(Some(t.id)) + ",",
      "  " + EscapeSql(Some(t.title)) + ",",
      "  " + EscapeSql(t.overview) + ",",
      "  " + EscapeSql(t.imageUrl) + ",",
      "  " + EscapeSql(t.author) + ",",
      "  " + EscapeSql(t.authorUrl) + ",",
      "  " + EscapeSql(t.difficulty) + ",",
      "  " + EscapeSql(t.estimatedTime) + ",",
      "  " + EscapeSql(t.sourceUrl),
      ");",
      "" ]
  }

  const GlossaryInsert := "INSERT OR REPLACE INTO glossary (id, tutorial_id, term, definition, context, sort_order) VALUES"
  const MaterialInsert := "INSERT OR REPLACE INTO materials (id, tutorial_id, name, quantity, notes, measurement_json, sort_order) VALUES"
  const ToolInsert := "INSERT OR REPLACE INTO tools (id, tutorial_id, name, notes, required, sort_order) VALUES"
  const StepInsert := "INSERT OR REPLACE INTO steps (id, tutorial_id, step_number, title, instructions, tips, measurements_json) VALUES"
  const StepImageInsert := "INSERT OR REPLACE INTO step_images (id, step_id, image_url, sort_order) VALUES"

  /** The script as a list of lines: the tutorial, then one section per non-empty child table. */
  function SeedLines(
    exportedAt: string, t: TutorialRecord, glossary: seq<GlossaryRecord>, materials: seq<MaterialRecord>,
    tools: seq<ToolRecord>, steps: seq<StepRecord>, images: seq<StepImageRecord>): seq<string>
  {
    HeaderLines(exportedAt, t)
    + Section("-- Glossary", GlossaryInsert, GlossaryRows(glossary))
    + Section("-- Materials", MaterialInsert, MaterialRows(materials))
    + Section("-- Tools", ToolInsert, ToolRows(tools))
    + Section("-- Steps", StepInsert, StepRows(steps))
    + Section("-- Step Images", StepImageInsert, StepImageRows(images))
  }

  /** Runs the step-image query when the joined step-id list is non-empty; no steps, no query. */
  method FetchStepImages(steps: seq<StepRecord>, imagesFor: string -> seq<StepImageRecord>)
    returns (images: seq<StepImageRecord>)
    ensures images == StepImages(steps, imagesFor)
    ensures |steps| == 0 ==> images == []
    ensures |steps| > 0 ==> images == imagesFor(StepImagesQuery(steps))
  {
    var stepIds := ValueList(StepIdValues(steps));
    StepIdListEmpty(steps);
    images := if stepIds != "" then imagesFor(StepImagesQuery(steps)) else [];
  }

  /** The line array of the script: the header literal, then one push per non-empty section. */
  method BuildSeedLines(
    exportedAt: string, tutorial: TutorialRecord, glossary: seq<GlossaryRecord>, materials: seq<MaterialRecord>,
    tools: seq<ToolRecord>, steps: seq<StepRecord>, stepImages: seq<StepImageRecord>)
    returns (lines: seq<string>)
    ensures lines == SeedLines(exportedAt, tutorial, glossary, materials, tools, steps, stepImages)
  {
    lines := HeaderLines(exportedAt, tutorial);
    lines := PushSection(lines, "-- Glossary", GlossaryInsert, GlossaryRows(glossary));
    lines := PushSection(lines, "-- Materials", MaterialInsert, MaterialRows(materials));
    lines := PushSection(lines, "-- Tools", ToolInsert, ToolRows(tools));
    lines := PushSection(lines, "-- Steps", StepInsert, StepRows(steps));
    lines := PushSection(lines, "-- Step Images", StepImageInsert, StepImageRows(stepImages));
  }

  /**
   * `generateTutorialSeed`: `tutorials` is the result of the lookup by id; an empty result ends the
   * script with "Tutorial not found". The step images are those `FetchStepImages` returns.
   */
  method GenerateTutorialSeed(
    tutorialId: string, exportedAt: string, tutorials: seq<TutorialRecord>,
    glossary: seq<GlossaryRecord>, materials: seq<MaterialRecord>, tools: seq<ToolRecord>,
    steps: seq<StepRecord>, imagesFor: string -> seq<StepImageRecord>)
    returns (r: Result<string, string>)
    ensures |tutorials| == 0 ==> r == Err("Tutorial not found: " + tutorialId)
    ensures |tutorials| > 0 ==>
      r == Ok(Join(SeedLines(exportedAt, tutorials[0], glossary, materials, tools, steps, StepImages(steps, imagesFor)), "\n"))
  {
    if |tutorials| == 0 {
      return Err("Tutorial not found: " + tutorialId);
    }
    var stepImages := FetchStepImages(steps, imagesFor);
    var lines := BuildSeedLines(exportedAt, tutorials[0], glossary, materials, tools, steps, stepImages);
    r := Ok(Join(lines, "\n"));
  }

  /** Every glossary value line carries exactly its glossary row, with `,` between rows and `;` last. */
  lemma GlossaryBlockCarriesRows(glossary: seq<GlossaryRecord>)
    ensures var lines := BlockLines(GlossaryRows(glossary));
      |lines| == |glossary|
      && forall i :: 0 <= i < |glossary| ==>
           ParseRow(lines[i]) == Some((GlossaryTuple(glossary[i]), if i == |glossary| - 1 then ";" else ","))
  {
    BlockLinesCarryRows(GlossaryRows(glossary));
  }

  /** The same for materials, tools, steps and step images. */
  lemma ChildBlocksCarryRows(
    materials: seq<MaterialRecord>, tools: seq<ToolRecord>, steps: seq<StepRecord>, images: seq<StepImageRecord>)
    ensures forall i :: 0 <= i < |materials| ==>
      ParseRow(BlockLines(MaterialRows(materials))[i]) == Some((MaterialTuple(materials[i]), Terminator(i, |materials|)))
    ensures forall i :: 0 <= i < |tools| ==>
      ParseRow(BlockLines(ToolRows(tools))[i]) == Some((ToolTuple(tools[i]), Terminator(i, |tools|)))
    ensures forall i :: 0 <= i < |steps| ==>
      ParseRow(BlockLines(StepRows(steps))[i]) == Some((StepTuple(steps[i]), Terminator(i, |steps|)))
    ensures forall i :: 0 <= i < |images| ==>
      ParseRow(BlockLines(StepImageRows(images))[i]) == Some((StepImageTuple(images[i]), Terminator(i, |images|)))
  {
    BlockLinesCarryRows(MaterialRows(materials));
    BlockLinesCarryRows(ToolRows(tools));
    BlockLinesCarryRows(StepRows(steps));
    BlockLinesCarryRows(StepImageRows(images));
  }
}
