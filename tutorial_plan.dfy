/**
 * The DIY viewer's writes as functions from tables to tables: the rows `addTutorial` inserts (with
 * ids drawn from a counter in call order), what `deleteTutorial` removes, and the checklist updates.
 * Also the invariant the app's own writes keep, and the view a freshly added tutorial reads back as.
 */
module TutorialPlan {
  import opened Wrappers
  import opened Table
  import opened StoredJson
  import opened TutorialRows

  // ---- Rows addTutorial writes ----

  function TutorialRowOf(id: string, x: TutorialInput): TutorialRow {
    TutorialRow(id, x.title, x.overview, x.imageUrl, x.author, x.authorUrl, x.difficulty,
                x.estimatedTime, x.sourceUrl)
  }

  function GlossaryRows(tid: string, base: nat, gs: seq<GlossaryInput>): (r: seq<GlossaryRow>)
    ensures |r| == |gs|
  {
    seq(|gs|, i requires 0 <= i < |gs| =>
      GlossaryRow(IdText(base + i), tid, gs[i].term, gs[i].definition, NullIfEmpty(gs[i].context), i))
  }

  function MaterialRows(tid: string, base: nat, ms: seq<MaterialInput>): (r: seq<MaterialRow>)
    ensures |r| == |ms|
  {
    seq(|ms|, i requires 0 <= i < |ms| =>
      MaterialRow(IdText(base + i), tid, ms[i].name, NullIfEmpty(ms[i].quantity),
                  NullIfEmpty(ms[i].notes), MeasurementColumn(ms[i].measurement), i))
  }

  function ToolRows(tid: string, base: nat, ts: seq<ToolInput>): (r: seq<ToolRow>)
    ensures |r| == |ts|
  {
    seq(|ts|, i requires 0 <= i < |ts| =>
      ToolRow(IdText(base + i), tid, ts[i].name, NullIfEmpty(ts[i].notes), FlagColumn(ts[i].required), i))
  }

  function StepRowOf(sid: string, tid: string, s: StepInput): StepRow {
    StepRow(sid, tid, s.stepNumber, s.title, s.instructions, NullIfEmpty(s.tips),
            ListColumn(s.measurements, EncodeMeasurement))
  }

  function ImageRows(sid: string, base: nat, urls: seq<string>): (r: seq<StepImageRow>)
    ensures |r| == |urls|
  {
    seq(|urls|, i requires 0 <= i < |urls| => StepImageRow(IdText(base + i), sid, urls[i], i))
  }

  function SkillRows(sid: string, base: nat, ks: seq<SkillInput>): (r: seq<SkillRow>)
    ensures |r| == |ks|
  {
    seq(|ks|, i requires 0 <= i < |ks| =>
      SkillRow(IdText(base + i), sid, ks[i].skillName, ks[i].difficulty, ks[i].description,
               ks[i].searchQuery, i))
  }

  function WarningRows(sid: string, base: nat, ws: seq<WarningInput>): (r: seq<WarningRow>)
    ensures |r| == |ws|
  {
    seq(|ws|, i requires 0 <= i < |ws| =>
      WarningRow(IdText(base + i), sid, ws[i].warning, ws[i].severity, ListColumn(ws[i].ppeRequired, Quote), i))
  }

  // ---- Id layout: a step takes its own id, then one per image, skill and warning, in that order ----

  function StepIdCount(s: StepInput): nat {
    1 + |s.imageUrls| + |s.skills| + |s.warnings|
  }

  function StepsIdCount(steps: seq<StepInput>): nat
    decreases |steps|
  {
    if steps == [] then 0 else StepsIdCount(steps[..|steps| - 1]) + StepIdCount(steps[|steps| - 1])
  }

  function ImageBatch(b: nat, s: StepInput): seq<StepImageRow> {
    ImageRows(IdText(b), b + 1, s.imageUrls)
  }

  function SkillBatch(b: nat, s: StepInput): seq<SkillRow> {
    SkillRows(IdText(b), b + 1 + |s.imageUrls|, s.skills)
  }

  function WarningBatch(b: nat, s: StepInput): seq<WarningRow> {
    WarningRows(IdText(b), b + 1 + |s.imageUrls| + |s.skills|, s.warnings)
  }

  /** The step rows of `steps`, the first taking id `base`. */
  function StepRowsFrom(tid: string, base: nat, steps: seq<StepInput>): (r: seq<StepRow>)
    ensures |r| == |steps|
    decreases |steps|
  {
    if steps == [] then []
    else
      var init := steps[..|steps| - 1];
      StepRowsFrom(tid, base, init) + [StepRowOf(IdText(base + StepsIdCount(init)), tid, steps[|steps| - 1])]
  }

  /** The child rows (one `batch` per step) of `steps`, the first step taking id `base`. */
  function ChildRowsFrom<T>(base: nat, steps: seq<StepInput>, batch: (nat, StepInput) -> seq<T>): seq<T>
    decreases |steps|
  {
    if steps == [] then []
    else
      var init := steps[..|steps| - 1];
      ChildRowsFrom(base, init, batch) + batch(base + StepsIdCount(init), steps[|steps| - 1])
  }

  /** One iteration of the step loop of `addTutorial`: the step row, then its images, skills and warnings. */
  function AddStepRows(t: Tables, tid: string, b: nat, s: StepInput): Tables {
    t.(steps := t.steps + [StepRowOf(IdText(b), tid, s)],
       stepImages := t.stepImages + ImageBatch(b, s),
       skills := t.skills + SkillBatch(b, s),
       warnings := t.warnings + WarningBatch(b, s))
  }

  /** The step loop of `addTutorial`, over the steps processed so far, the first step taking id `base`. */
  function AddStepsRows(t: Tables, tid: string, base: nat, steps: seq<StepInput>): Tables
    decreases |steps|
  {
    if steps == [] then t
    else
      var init := steps[..|steps| - 1];
      AddStepRows(AddStepsRows(t, tid, base, init), tid, base + StepsIdCount(init), steps[|steps| - 1])
  }

  lemma Regroup<T>(a: seq<T>, b: seq<T>, c: seq<T>)
    ensures a + (b + c) == a + b + c
  {
  }

  /** Two runs of `addToChecklist` calls, one after the other, append the rows of one run. */
  lemma ItemRowsTwice(rows: seq<ChecklistRow>, base: nat, mid: nat, a: seq<ChecklistInput>, b: seq<ChecklistInput>)
    requires mid == base + |a|
    ensures rows + ItemRows(base, a) + ItemRows(mid, b) == rows + ItemRows(base, a + b)
  {
    ItemRowsAppend(base, a, b);
  }

  /** The step loop appends each table's rows for all the steps, and touches no other table. */
  lemma {:induction false} AddStepsRowsTables(t: Tables, tid: string, base: nat, steps: seq<StepInput>)
    ensures AddStepsRows(t, tid, base, steps)
         == t.(steps := t.steps + StepRowsFrom(tid, base, steps),
               stepImages := t.stepImages + ChildRowsFrom(base, steps, ImageBatch),
               skills := t.skills + ChildRowsFrom(base, steps, SkillBatch),
               warnings := t.warnings + ChildRowsFrom(base, steps, WarningBatch))
    decreases |steps|
  {
    if steps == [] {
      assert t.steps + [] == t.steps && t.stepImages + [] == t.stepImages;
      assert t.skills + [] == t.skills && t.warnings + [] == t.warnings;
    } else {
      var init := steps[..|steps| - 1];
      var b := base + StepsIdCount(init);
      var last := steps[|steps| - 1];
      AddStepsRowsTables(t, tid, base, init);
      Regroup(t.steps, StepRowsFrom(tid, base, init), [StepRowOf(IdText(b), tid, last)]);
      Regroup(t.stepImages, ChildRowsFrom(base, init, ImageBatch), ImageBatch(b, last));
      Regroup(t.skills, ChildRowsFrom(base, init, SkillBatch), SkillBatch(b, last));
      Regroup(t.warnings, ChildRowsFrom(base, init, WarningBatch), WarningBatch(b, last));
    }
  }

  function AddIdCount(gs: seq<GlossaryInput>, ms: seq<MaterialInput>, ts: seq<ToolInput>, steps: seq<StepInput>): nat {
    1 + |gs| + |ms| + |ts| + StepsIdCount(steps)
  }

  /** The tutorial row: the first insert of `addTutorial`. */
  function AddTutorialRow(t: Tables, tid: string, x: TutorialInput): Tables {
    t.(tutorials := t.tutorials + [TutorialRowOf(tid, x)])
  }

  /** The glossary loop of `addTutorial`, ids from `base`. */
  function AddGlossaryRows(t: Tables, tid: string, base: nat, gs: seq<GlossaryInput>): Tables {
    t.(glossary := t.glossary + GlossaryRows(tid, base, gs))
  }

  /** The materials loop of `addTutorial`, ids from `base`. */
  function AddMaterialRows(t: Tables, tid: string, base: nat, ms: seq<MaterialInput>): Tables {
    t.(materials := t.materials + MaterialRows(tid, base, ms))
  }

  /** The tools loop of `addTutorial`, ids from `base`. */
  function AddToolRows(t: Tables, tid: string, base: nat, ts: seq<ToolInput>): Tables {
    t.(tools := t.tools + ToolRows(tid, base, ts))
  }

  /** `addTutorial` with the id counter at `n`: the tutorial takes id n, its children the ids after. */
  function AddTutorialRows(t: Tables, n: nat, x: TutorialInput, gs: seq<GlossaryInput>,
                           ms: seq<MaterialInput>, ts: seq<ToolInput>, steps: seq<StepInput>): Tables
  {
    var tid := IdText(n);
    var t1 := AddTutorialRow(t, tid, x);
    var t2 := AddGlossaryRows(t1, tid, n + 1, gs);
    var t3 := AddMaterialRows(t2, tid, n + 1 + |gs|, ms);
    var t4 := AddToolRows(t3, tid, n + 1 + |gs| + |ms|, ts);
    AddStepsRows(t4, tid, n + 1 + |gs| + |ms| + |ts|, steps)
  }

  // ---- deleteTutorial ----

  /** `SELECT id FROM steps WHERE tutorial_id = ?`, in table order. */
  function StepIdsOf(t: Tables, tid: string): (r: seq<string>)
    ensures forall sid :: sid in r <==> exists s :: s in t.steps && s.tutorialId == tid && s.id == sid
  {
    var rows := Where(t.steps, StepIn(tid));
    var r := seq(|rows|, i requires 0 <= i < |rows| => rows[i].id);
    assert forall s :: s in t.steps && s.tutorialId == tid ==> s in rows && r[IndexOf(rows, s)] == s.id;
    assert forall i :: 0 <= i < |r| ==> rows[i] in rows && StepIn(tid)(rows[i]);
    r
  }

  function IndexOf<T(==)>(xs: seq<T>, x: T): (i: nat)
    requires x in xs
    ensures i < |xs| && xs[i] == x
  {
    if xs[0] == x then 0 else 1 + IndexOf(xs[1..], x)
  }

  function TutorialIsNot(id: string): TutorialRow -> bool { (r: TutorialRow) => r.id != id }
  function GlossaryNotIn(tid: string): GlossaryRow -> bool { (r: GlossaryRow) => r.tutorialId != tid }
  function MaterialNotIn(tid: string): MaterialRow -> bool { (r: MaterialRow) => r.tutorialId != tid }
  function ToolNotIn(tid: string): ToolRow -> bool { (r: ToolRow) => r.tutorialId != tid }
  function StepNotIn(tid: string): StepRow -> bool { (r: StepRow) => r.tutorialId != tid }
  function ImageNotUnder(sids: seq<string>): StepImageRow -> bool { (r: StepImageRow) => r.stepId !in sids }
  function SkillNotUnder(sids: seq<string>): SkillRow -> bool { (r: SkillRow) => r.stepId !in sids }
  function WarningNotUnder(sids: seq<string>): WarningRow -> bool { (r: WarningRow) => r.stepId !in sids }

  /** The step-children deletes for the step ids handled so far. */
  function DeleteStepChildren(t: Tables, sids: seq<string>): Tables {
    t.(stepImages := Where(t.stepImages, ImageNotUnder(sids)),
       skills := Where(t.skills, SkillNotUnder(sids)),
       warnings := Where(t.warnings, WarningNotUnder(sids)))
  }

  function ImageNotOf(sid: string): StepImageRow -> bool { (r: StepImageRow) => r.stepId != sid }
  function SkillNotOf(sid: string): SkillRow -> bool { (r: SkillRow) => r.stepId != sid }
  function WarningNotOf(sid: string): WarningRow -> bool { (r: WarningRow) => r.stepId != sid }

  lemma DeleteStepChildrenNone(t: Tables)
    ensures DeleteStepChildren(t, []) == t
  {
    WhereAll(t.stepImages, ImageNotUnder([]));
    WhereAll(t.skills, SkillNotUnder([]));
    WhereAll(t.warnings, WarningNotUnder([]));
  }

  /** Deleting the children of one more step id, as the loop of `deleteTutorial` does. */
  lemma DeleteStepChildrenNext(t: Tables, sids: seq<string>, i: nat)
    requires i < |sids|
    ensures DeleteStepChildren(t, sids[..i + 1])
         == var d := DeleteStepChildren(t, sids[..i]);
            d.(stepImages := Where(d.stepImages, ImageNotOf(sids[i])),
               skills := Where(d.skills, SkillNotOf(sids[i])),
               warnings := Where(d.warnings, WarningNotOf(sids[i])))
  {
    assert sids[..i + 1] == sids[..i] + [sids[i]];
    WhereWhere(t.stepImages, ImageNotUnder(sids[..i]), ImageNotOf(sids[i]), ImageNotUnder(sids[..i + 1]));
    WhereWhere(t.skills, SkillNotUnder(sids[..i]), SkillNotOf(sids[i]), SkillNotUnder(sids[..i + 1]));
    WhereWhere(t.warnings, WarningNotUnder(sids[..i]), WarningNotOf(sids[i]), WarningNotUnder(sids[..i + 1]));
  }

  /**
   * `deleteTutorial`: step children first, then glossary and tools, then the tutorial row, whose
   * delete cascades to its materials and steps (`ON DELETE CASCADE` in the schema).
   */
  function DeleteTutorialRows(t: Tables, id: string): Tables {
    var t1 := DeleteStepChildren(t, StepIdsOf(t, id));
    t1.(glossary := Where(t1.glossary, GlossaryNotIn(id)),
        tools := Where(t1.tools, ToolNotIn(id)),
        tutorials := Where(t1.tutorials, TutorialIsNot(id)),
        materials := Where(t1.materials, MaterialNotIn(id)),
        steps := Where(t1.steps, StepNotIn(id)))
  }

  // ---- Checklist ----

  /** The row `addToChecklist` inserts; `checked` takes the column default 0. */
  function ChecklistRowOf(id: string, item: ChecklistInput): ChecklistRow {
    ChecklistRow(id, item.name, NullIfEmpty(item.quantity), NullIfEmpty(item.notes), 0,
                 NullIfEmpty(item.tutorialId), Some(item.itemType.Name()))
  }

  /** The rows one `addToChecklist` per entry inserts, ids from `base`. */
  function ItemRows(base: nat, items: seq<ChecklistInput>): (r: seq<ChecklistRow>)
    ensures |r| == |items|
    decreases |items|
  {
    if items == [] then []
    else
      var init := items[..|items| - 1];
      ItemRows(base, init) + [ChecklistRowOf(IdText(base + |init|), items[|items| - 1])]
  }

  /** `UPDATE … SET checked = NOT checked WHERE id = ?`. */
  function ToggleRows(rows: seq<ChecklistRow>, id: string): (r: seq<ChecklistRow>)
    ensures |r| == |rows|
  {
    seq(|rows|, i requires 0 <= i < |rows| =>
      if rows[i].id == id then rows[i].(checked := SqlNot(rows[i].checked)) else rows[i])
  }

  function ChecklistIsNot(id: string): ChecklistRow -> bool { (r: ChecklistRow) => r.id != id }

  /** The checklist entry copied from a material (`quantity || undefined`, `notes || undefined`). */
  function MaterialEntry(tid: string, m: MaterialRow): ChecklistInput {
    ChecklistInput(m.name, NullIfEmpty(m.quantity), NullIfEmpty(m.notes), Some(tid), MaterialItem)
  }

  /** The checklist entry copied from a tool: no quantity. */
  function ToolEntry(tid: string, r: ToolRow): ChecklistInput {
    ChecklistInput(r.name, None, NullIfEmpty(r.notes), Some(tid), ToolItem)
  }

  /** `SELECT * FROM materials WHERE tutorial_id = ?`, in table order. */
  function ChecklistMaterials(t: Tables, tid: string): seq<MaterialRow> {
    Where(t.materials, MaterialIn(tid))
  }

  /** `SELECT * FROM tools WHERE tutorial_id = ? AND required = 1`, in table order. */
  function ChecklistTools(t: Tables, tid: string): seq<ToolRow> {
    Where(t.tools, RequiredToolIn(tid))
  }

  function MaterialEntries(tid: string, ms: seq<MaterialRow>): (r: seq<ChecklistInput>)
    ensures |r| == |ms|
  {
    seq(|ms|, i requires 0 <= i < |ms| => MaterialEntry(tid, ms[i]))
  }

  function ToolEntries(tid: string, ts: seq<ToolRow>): (r: seq<ChecklistInput>)
    ensures |r| == |ts|
  {
    seq(|ts|, i requires 0 <= i < |ts| => ToolEntry(tid, ts[i]))
  }

  /** The entries `addTutorialToChecklist` adds, materials first. */
  function TutorialEntries(t: Tables, tid: string): (r: seq<ChecklistInput>)
    ensures |r| == |ChecklistMaterials(t, tid)| + |ChecklistTools(t, tid)|
  {
    MaterialEntries(tid, ChecklistMaterials(t, tid)) + ToolEntries(tid, ChecklistTools(t, tid))
  }

  /** Adding two runs of entries one after the other adds their concatenation. */
  lemma {:induction false} ItemRowsAppend(base: nat, a: seq<ChecklistInput>, b: seq<ChecklistInput>)
    ensures ItemRows(base, a + b) == ItemRows(base, a) + ItemRows(base + |a|, b)
    decreases |b|
  {
    if b == [] {
      assert a + b == a;
    } else {
      var b' := b[..|b| - 1];
      assert (a + b)[..|a + b| - 1] == a + b';
      ItemRowsAppend(base, a, b');
    }
  }

  // ---- The invariant the app's writes keep ----

  predicate TutorialsValid(rows: seq<TutorialRow>, n: nat) {
    forall r :: r in rows ==> Issued(r.id, n)
  }

  predicate GlossaryValid(rows: seq<GlossaryRow>, n: nat) {
    forall r :: r in rows ==> Issued(r.id, n) && Issued(r.tutorialId, n)
  }

  predicate MaterialsValid(rows: seq<MaterialRow>, n: nat) {
    forall r :: r in rows ==>
      Issued(r.id, n) && Issued(r.tutorialId, n) && ReadMeasurementColumn(r.measurementJson).Ok?
  }

  predicate ToolsValid(rows: seq<ToolRow>, n: nat) {
    forall r :: r in rows ==> Issued(r.id, n) && Issued(r.tutorialId, n)
  }

  predicate StepsValid(rows: seq<StepRow>, n: nat) {
    forall r :: r in rows ==>
      Issued(r.id, n) && Issued(r.tutorialId, n) && ReadMeasurements(r.measurementsJson).Ok?
  }

  predicate ImagesValid(rows: seq<StepImageRow>, n: nat) {
    forall r :: r in rows ==> Issued(r.id, n) && Issued(r.stepId, n)
  }

  predicate SkillsValid(rows: seq<SkillRow>, n: nat) {
    forall r :: r in rows ==> Issued(r.id, n) && Issued(r.stepId, n)
  }

  predicate WarningsValid(rows: seq<WarningRow>, n: nat) {
    forall r :: r in rows ==> Issued(r.id, n) && Issued(r.stepId, n) && ReadPpe(r.ppeRequiredJson).Ok?
  }

  predicate ChecklistValid(rows: seq<ChecklistRow>, n: nat) {
    forall r :: r in rows ==> Issued(r.id, n) && (r.checked == 0 || r.checked == 1)
  }

  /**
   * Every id and parent id in the tables was drawn from the counter before `n`, every stored JSON
   * column parses, and every checklist flag is 0 or 1.
   */
  predicate TablesValid(t: Tables, n: nat) {
    && TutorialsValid(t.tutorials, n) && GlossaryValid(t.glossary, n) && MaterialsValid(t.materials, n)
    && ToolsValid(t.tools, n) && StepsValid(t.steps, n) && ImagesValid(t.stepImages, n)
    && SkillsValid(t.skills, n) && WarningsValid(t.warnings, n) && ChecklistValid(t.checklist, n)
  }

  const NoTables := Tables([], [], [], [], [], [], [], [], [])

  // ---- What a freshly added tutorial reads back as ----

  function MaterialViews(tid: string, base: nat, ms: seq<MaterialInput>): seq<MaterialView> {
    seq(|ms|, i requires 0 <= i < |ms| =>
      MaterialView(IdText(base + i), tid, ms[i].name, NullIfEmpty(ms[i].quantity),
                   NullIfEmpty(ms[i].notes), ms[i].measurement, i))
  }

  function ToolViews(tid: string, base: nat, ts: seq<ToolInput>): seq<ToolView> {
    seq(|ts|, i requires 0 <= i < |ts| =>
      ToolView(IdText(base + i), tid, ts[i].name, NullIfEmpty(ts[i].notes), ts[i].required, i))
  }

  function WarningViews(sid: string, base: nat, ws: seq<WarningInput>): seq<WarningView> {
    seq(|ws|, i requires 0 <= i < |ws| =>
      WarningView(IdText(base + i), sid, ws[i].warning, ws[i].severity, ws[i].ppeRequired, i))
  }

  function StepViewOf(b: nat, tid: string, s: StepInput): StepView {
    var sid := IdText(b);
    StepView(sid, tid, s.stepNumber, s.title, s.instructions, NullIfEmpty(s.tips), s.measurements,
             ImageBatch(b, s), SkillBatch(b, s),
             WarningViews(sid, b + 1 + |s.imageUrls| + |s.skills|, s.warnings))
  }

  function StepViewsFrom(tid: string, base: nat, steps: seq<StepInput>): (r: seq<StepView>)
    ensures |r| == |steps|
    decreases |steps|
  {
    if steps == [] then []
    else
      var init := steps[..|steps| - 1];
      StepViewsFrom(tid, base, init) + [StepViewOf(base + StepsIdCount(init), tid, steps[|steps| - 1])]
  }

  /**
   * The inputs as `getTutorialById` returns them: children in input order with `sort_order` their
   * index, empty optional strings as NULL, and the steps ordered by `step_number`.
   */
  function AddedView(n: nat, x: TutorialInput, gs: seq<GlossaryInput>, ms: seq<MaterialInput>,
                     ts: seq<ToolInput>, steps: seq<StepInput>): TutorialView
  {
    var tid := IdText(n);
    TutorialView(TutorialRowOf(tid, x), GlossaryRows(tid, n + 1, gs), MaterialViews(tid, n + 1 + |gs|, ms),
                 ToolViews(tid, n + 1 + |gs| + |ms|, ts),
                 SortBy(StepViewsFrom(tid, n + 1 + |gs| + |ms| + |ts|, steps), StepViewOrder))
  }
}
