/**
 * The DIY viewer's tables as the database layer writes and reads them: stored rows, the inputs
 * `addTutorial` accepts, the views the read functions assemble, and the column conversions between
 * them (`|| null`, the 0/1 `required` flag, JSON text for measurements and PPE lists).
 */
module TutorialRows {
  import opened Wrappers
  import opened Table
  import opened StoredJson

  // ---- Stored rows (one datatype per table; `created_at` is represented by table order) ----

  datatype TutorialRow = TutorialRow(
    id: string, title: string, overview: Option<string>, imageUrl: Option<string>,
    author: Option<string>, authorUrl: Option<string>, difficulty: Option<string>,
    estimatedTime: Option<string>, sourceUrl: Option<string>)

  datatype GlossaryRow = GlossaryRow(
    id: string, tutorialId: string, term: string, definition: string, context: Option<string>,
    sortOrder: int)

  datatype MaterialRow = MaterialRow(
    id: string, tutorialId: string, name: string, quantity: Option<string>, notes: Option<string>,
    measurementJson: Option<string>, sortOrder: int)

  datatype ToolRow = ToolRow(
    id: string, tutorialId: string, name: string, notes: Option<string>, required: int, sortOrder: int)

  datatype StepRow = StepRow(
    id: string, tutorialId: string, stepNumber: int, title: string, instructions: string,
    tips: Option<string>, measurementsJson: Option<string>)

  datatype StepImageRow = StepImageRow(id: string, stepId: string, imageUrl: string, sortOrder: int)

  datatype SkillRow = SkillRow(
    id: string, stepId: string, skillName: string, difficulty: string, description: string,
    searchQuery: string, sortOrder: int)

  datatype WarningRow = WarningRow(
    id: string, stepId: string, warning: string, severity: string, ppeRequiredJson: Option<string>,
    sortOrder: int)

  datatype ChecklistRow = ChecklistRow(
    id: string, name: string, quantity: Option<string>, notes: Option<string>, checked: int,
    tutorialId: Option<string>, itemType: Option<string>)

  datatype Tables = Tables(
    tutorials: seq<TutorialRow>, glossary: seq<GlossaryRow>, materials: seq<MaterialRow>,
    tools: seq<ToolRow>, steps: seq<StepRow>, stepImages: seq<StepImageRow>, skills: seq<SkillRow>,
    warnings: seq<WarningRow>, checklist: seq<ChecklistRow>)

  // ---- Inputs (an absent optional list is the empty list) ----

  datatype TutorialInput = TutorialInput(
    title: string, overview: Option<string>, imageUrl: Option<string>, author: Option<string>,
    authorUrl: Option<string>, difficulty: Option<string>, estimatedTime: Option<string>,
    sourceUrl: Option<string>)

  datatype GlossaryInput = GlossaryInput(term: string, definition: string, context: Option<string>)

  datatype MaterialInput = MaterialInput(
    name: string, quantity: Option<string>, notes: Option<string>, measurement: Option<Measurement>)

  datatype ToolInput = ToolInput(name: string, notes: Option<string>, required: bool)

  datatype SkillInput = SkillInput(skillName: string, difficulty: string, description: string, searchQuery: string)

  datatype WarningInput = WarningInput(warning: string, severity: string, ppeRequired: seq<string>)

  datatype StepInput = StepInput(
    stepNumber: int, title: string, instructions: string, tips: Option<string>,
    imageUrls: seq<string>, measurements: seq<Measurement>, skills: seq<SkillInput>,
    warnings: seq<WarningInput>)

  datatype ItemType = MaterialItem | ToolItem {
    function Name(): string {
      match this
      case MaterialItem => "material"
      case ToolItem => "tool"
    }
  }

  datatype ChecklistInput = ChecklistInput(
    name: string, quantity: Option<string>, notes: Option<string>, tutorialId: Option<string>,
    itemType: ItemType)

  // ---- Views returned by the read functions ----

  datatype MaterialView = MaterialView(
    id: string, tutorialId: string, name: string, quantity: Option<string>, notes: Option<string>,
    measurement: Option<Measurement>, sortOrder: int)

  datatype ToolView = ToolView(
    id: string, tutorialId: string, name: string, notes: Option<string>, required: bool, sortOrder: int)

  datatype WarningView = WarningView(
    id: string, stepId: string, warning: string, severity: string, ppeRequired: seq<string>, sortOrder: int)

  datatype StepView = StepView(
    id: string, tutorialId: string, stepNumber: int, title: string, instructions: string,
    tips: Option<string>, measurements: seq<Measurement>, images: seq<StepImageRow>,
    skillReferences: seq<SkillRow>, safetyWarnings: seq<WarningView>)

  datatype TutorialView = TutorialView(
    tutorial: TutorialRow, glossary: seq<GlossaryRow>, materials: seq<MaterialView>,
    tools: seq<ToolView>, steps: seq<StepView>)

  datatype ChecklistItem = ChecklistItem(
    id: string, name: string, quantity: Option<string>, notes: Option<string>, checked: bool,
    tutorialId: Option<string>, itemType: string)

  // ---- Row selectors (`WHERE` conditions) and sort keys ----

  function TutorialIs(id: string): TutorialRow -> bool { (r: TutorialRow) => r.id == id }
  function GlossaryIn(tid: string): GlossaryRow -> bool { (r: GlossaryRow) => r.tutorialId == tid }
  function MaterialIn(tid: string): MaterialRow -> bool { (r: MaterialRow) => r.tutorialId == tid }
  function ToolIn(tid: string): ToolRow -> bool { (r: ToolRow) => r.tutorialId == tid }
  function RequiredToolIn(tid: string): ToolRow -> bool { (r: ToolRow) => r.tutorialId == tid && r.required == 1 }
  function StepIn(tid: string): StepRow -> bool { (r: StepRow) => r.tutorialId == tid }
  function ImageIn(sid: string): StepImageRow -> bool { (r: StepImageRow) => r.stepId == sid }
  function SkillIn(sid: string): SkillRow -> bool { (r: SkillRow) => r.stepId == sid }
  function WarningIn(sid: string): WarningRow -> bool { (r: WarningRow) => r.stepId == sid }

  function GlossaryOrder(r: GlossaryRow): int { r.sortOrder }
  function MaterialOrder(r: MaterialRow): int { r.sortOrder }
  function ToolOrder(r: ToolRow): int { r.sortOrder }
  function StepOrder(r: StepRow): int { r.stepNumber }
  function StepViewOrder(v: StepView): int { v.stepNumber }
  function ImageOrder(r: StepImageRow): int { r.sortOrder }
  function SkillOrder(r: SkillRow): int { r.sortOrder }
  function WarningOrder(r: WarningRow): int { r.sortOrder }

  // ---- Column conversions ----

  /** `measurements_json` / `ppe_required_json`: NULL or empty reads as `[]`, otherwise JSON.parse. */
  function ReadMeasurements(col: Option<string>): Result<seq<Measurement>, ParseFailure> {
    MeasurementListCodec();
    ReadListColumn(col, ParseMeasurement)
  }

  function ReadPpe(col: Option<string>): Result<seq<string>, ParseFailure> {
    StringListCodec();
    ReadListColumn(col, ParseString)
  }

  /** The measurement list a step stores reads back unchanged. */
  lemma MeasurementsColumnRoundTrip(ms: seq<Measurement>)
    ensures ReadMeasurements(ListColumn(ms, EncodeMeasurement)) == Ok(ms)
  {
    MeasurementListCodec();
    ListColumnRoundTrip(ms, EncodeMeasurement, ParseMeasurement);
  }

  /** The PPE list a warning stores reads back unchanged. */
  lemma PpeColumnRoundTrip(ppe: seq<string>)
    ensures ReadPpe(ListColumn(ppe, Quote)) == Ok(ppe)
  {
    StringListCodec();
    ListColumnRoundTrip(ppe, Quote, ParseString);
  }

  function DecodeMaterial(r: MaterialRow): Result<MaterialView, ParseFailure> {
    var m :- ReadMeasurementColumn(r.measurementJson);
    Ok(MaterialView(r.id, r.tutorialId, r.name, r.quantity, r.notes, m, r.sortOrder))
  }

  function DecodeTool(r: ToolRow): ToolView {
    ToolView(r.id, r.tutorialId, r.name, r.notes, IsOne(r.required), r.sortOrder)
  }

  function DecodeWarning(r: WarningRow): Result<WarningView, ParseFailure> {
    var ppe :- ReadPpe(r.ppeRequiredJson);
    Ok(WarningView(r.id, r.stepId, r.warning, r.severity, ppe, r.sortOrder))
  }

  /** `checked === 1`, and `item_type || 'material'`. */
  function DecodeChecklist(r: ChecklistRow): ChecklistItem {
    var kind := if r.itemType.None? || r.itemType.value == "" then "material" else r.itemType.value;
    ChecklistItem(r.id, r.name, r.quantity, r.notes, IsOne(r.checked), r.tutorialId, kind)
  }

  // ---- Reads ----

  function GlossaryOf(t: Tables, tid: string): seq<GlossaryRow> {
    SortBy(Where(t.glossary, GlossaryIn(tid)), GlossaryOrder)
  }

  function MaterialsOf(t: Tables, tid: string): seq<MaterialRow> {
    SortBy(Where(t.materials, MaterialIn(tid)), MaterialOrder)
  }

  function ToolsOf(t: Tables, tid: string): seq<ToolRow> {
    SortBy(Where(t.tools, ToolIn(tid)), ToolOrder)
  }

  function StepsOf(t: Tables, tid: string): seq<StepRow> {
    SortBy(Where(t.steps, StepIn(tid)), StepOrder)
  }

  function ImagesOf(t: Tables, sid: string): seq<StepImageRow> {
    SortBy(Where(t.stepImages, ImageIn(sid)), ImageOrder)
  }

  function SkillsOf(t: Tables, sid: string): seq<SkillRow> {
    SortBy(Where(t.skills, SkillIn(sid)), SkillOrder)
  }

  function WarningsOf(t: Tables, sid: string): seq<WarningRow> {
    SortBy(Where(t.warnings, WarningIn(sid)), WarningOrder)
  }

  function DecodeTools(rows: seq<ToolRow>): (r: seq<ToolView>)
    ensures |r| == |rows| && forall i :: 0 <= i < |rows| ==> r[i] == DecodeTool(rows[i])
  {
    seq(|rows|, i requires 0 <= i < |rows| => DecodeTool(rows[i]))
  }

  /** One entry of `getTutorialById`'s steps: the step with its images, skills and warnings. */
  function StepDetails(t: Tables, s: StepRow): (r: Result<StepView, ParseFailure>)
    ensures r.Ok? ==> r.value.stepNumber == s.stepNumber
  {
    var warnings :- DecodeEach(WarningsOf(t, s.id), DecodeWarning);
    var measurements :- ReadMeasurements(s.measurementsJson);
    Ok(StepView(s.id, s.tutorialId, s.stepNumber, s.title, s.instructions, s.tips, measurements,
                ImagesOf(t, s.id), SkillsOf(t, s.id), warnings))
  }

  function StepDecoder(t: Tables): StepRow -> Result<StepView, ParseFailure> {
    s => StepDetails(t, s)
  }

  /**
   * `getTutorialById`: None when no tutorial has the id; Err when a stored JSON column does not
   * parse (the call throws).
   */
  function TutorialDetails(t: Tables, id: string): Result<Option<TutorialView>, ParseFailure> {
    match FirstWhere(t.tutorials, TutorialIs(id))
    case None => Ok(None)
    case Some(row) =>
      var materials :- DecodeEach(MaterialsOf(t, id), DecodeMaterial);
      var steps :- DecodeEach(StepsOf(t, id), StepDecoder(t));
      Ok(Some(TutorialView(row, GlossaryOf(t, id), materials, DecodeTools(ToolsOf(t, id)), steps)))
  }

  /** `getTutorials`: every tutorial, newest first. */
  function TutorialList(t: Tables): seq<TutorialRow> {
    NewestFirst(t.tutorials)
  }

  /** `getChecklist`: every item, newest first, decoded. */
  function ChecklistView(t: Tables): (r: seq<ChecklistItem>)
    ensures |r| == |t.checklist|
  {
    var rows := NewestFirst(t.checklist);
    seq(|rows|, i requires 0 <= i < |rows| => DecodeChecklist(rows[i]))
  }
}
