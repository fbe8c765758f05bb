/**
 * Reading a tutorial back right after `addTutorial` stored it: `getTutorialById` on the new id
 * returns exactly the inputs, with empty optional strings as NULL, children in input order with
 * `sort_order` their index, each step's images, skills and warnings, and the steps by `step_number`.
 */
module TutorialReadBack {
  import opened Wrappers
  import opened Table
  import opened StoredJson
  import opened TutorialRows
  import opened TutorialPlan
  import opened TutorialBatches

  /** Where `addTutorial`'s step loop starts drawing ids. */
  function StepsBase(n: nat, gs: seq<GlossaryInput>, ms: seq<MaterialInput>, ts: seq<ToolInput>): nat {
    n + 1 + |gs| + |ms| + |ts|
  }

  /** `addTutorial` appends to each table and changes no row already there. */
  lemma AddedTables(t: Tables, n: nat, x: TutorialInput, gs: seq<GlossaryInput>, ms: seq<MaterialInput>,
                    ts: seq<ToolInput>, steps: seq<StepInput>)
    ensures var tid := IdText(n);
            var sb := StepsBase(n, gs, ms, ts);
            var a := AddTutorialRows(t, n, x, gs, ms, ts, steps);
            && a.tutorials == t.tutorials + [TutorialRowOf(tid, x)]
            && a.glossary == t.glossary + GlossaryRows(tid, n + 1, gs)
            && a.materials == t.materials + MaterialRows(tid, n + 1 + |gs|, ms)
            && a.tools == t.tools + ToolRows(tid, n + 1 + |gs| + |ms|, ts)
            && a.steps == t.steps + StepRowsFrom(tid, sb, steps)
            && a.stepImages == t.stepImages + ChildRowsFrom(sb, steps, ImageBatch)
            && a.skills == t.skills + ChildRowsFrom(sb, steps, SkillBatch)
            && a.warnings == t.warnings + ChildRowsFrom(sb, steps, WarningBatch)
            && a.checklist == t.checklist
  {
    var tid := IdText(n);
    var t4 := AddToolRows(AddMaterialRows(AddGlossaryRows(AddTutorialRow(t, tid, x), tid, n + 1, gs),
                                          tid, n + 1 + |gs|, ms), tid, n + 1 + |gs| + |ms|, ts);
    AddStepsRowsTables(t4, tid, StepsBase(n, gs, ms, ts), steps);
  }

  /** No row already stored before the counter reached `n` refers to the id `n` or a later one. */
  lemma FreshId(id: string, n: nat, m: nat)
    requires Issued(id, n) && n <= m
    ensures id != IdText(m)
  {
    IdTextIssued(m, n);
  }

  // ---- The tutorial's own lists ----

  lemma GlossaryBack(a: Tables, rows: seq<GlossaryRow>, tid: string, base: nat, gs: seq<GlossaryInput>)
    requires Where(rows, GlossaryIn(tid)) == [] && a.glossary == rows + GlossaryRows(tid, base, gs)
    ensures GlossaryOf(a, tid) == GlossaryRows(tid, base, gs)
  {
    var added := GlossaryRows(tid, base, gs);
    WhereAppend(rows, added, GlossaryIn(tid));
    WhereAll(added, GlossaryIn(tid));
    assert [] + added == added;
    SortByIndexed(added, GlossaryOrder);
  }

  lemma MaterialsBack(a: Tables, rows: seq<MaterialRow>, tid: string, n: nat, gs: seq<GlossaryInput>,
                      ms: seq<MaterialInput>)
    requires Where(rows, MaterialIn(tid)) == [] && a.materials == rows + MaterialRows(tid, n + 1 + |gs|, ms)
    ensures DecodeEach(MaterialsOf(a, tid), DecodeMaterial) == Ok(MaterialViews(tid, n + 1 + |gs|, ms))
  {
    var added := MaterialRows(tid, n + 1 + |gs|, ms);
    var views := MaterialViews(tid, n + 1 + |gs|, ms);
    WhereAppend(rows, added, MaterialIn(tid));
    WhereAll(added, MaterialIn(tid));
    assert [] + added == added;
    SortByIndexed(added, MaterialOrder);
    forall i | 0 <= i < |added| ensures DecodeMaterial(added[i]) == Ok(views[i]) {
      MeasurementColumnRoundTrip(ms[i].measurement);
    }
    DecodeEachAll(added, DecodeMaterial, views);
  }

  lemma ToolsBack(a: Tables, rows: seq<ToolRow>, tid: string, n: nat, gs: seq<GlossaryInput>,
                  ms: seq<MaterialInput>, ts: seq<ToolInput>)
    requires Where(rows, ToolIn(tid)) == [] && a.tools == rows + ToolRows(tid, n + 1 + |gs| + |ms|, ts)
    ensures DecodeTools(ToolsOf(a, tid)) == ToolViews(tid, n + 1 + |gs| + |ms|, ts)
  {
    var added := ToolRows(tid, n + 1 + |gs| + |ms|, ts);
    var views := ToolViews(tid, n + 1 + |gs| + |ms|, ts);
    WhereAppend(rows, added, ToolIn(tid));
    WhereAll(added, ToolIn(tid));
    assert [] + added == added;
    SortByIndexed(added, ToolOrder);
    forall i | 0 <= i < |added| ensures DecodeTool(added[i]) == views[i] {
      FlagRoundTrip(ts[i].required);
    }
  }

  // ---- One step's children ----

  lemma ImageBatchParents()
    ensures forall b: nat, s: StepInput, x :: x in ImageBatch(b, s) ==> x.stepId == IdText(b)
  {
  }

  lemma SkillBatchParents()
    ensures forall b: nat, s: StepInput, x :: x in SkillBatch(b, s) ==> x.stepId == IdText(b)
  {
  }

  lemma WarningBatchParents()
    ensures forall b: nat, s: StepInput, x :: x in WarningBatch(b, s) ==> x.stepId == IdText(b)
  {
  }

  /** Step `j`'s images: none of the old rows, and exactly the batch written for it. */
  lemma ImagesBack(a: Tables, rows: seq<StepImageRow>, n: nat, sb: nat, steps: seq<StepInput>, j: nat)
    requires ImagesValid(rows, n) && n <= sb && j < |steps|
    requires a.stepImages == rows + ChildRowsFrom(sb, steps, ImageBatch)
    ensures var b := StepBase(sb, steps, j);
            ImagesOf(a, IdText(b)) == ImageBatch(b, steps[j])
  {
    var b := StepBase(sb, steps, j);
    var sel := ImageIn(IdText(b));
    var c := ChildRowsFrom(sb, steps, ImageBatch);
    assert Where(rows + c, sel) == ImageBatch(b, steps[j]) by {
      forall r | r in rows ensures !sel(r) {
        FreshId(r.stepId, n, b);
      }
      ImageBatchParents();
      ChildRowsOfStep(sb, steps, ImageBatch, (r: StepImageRow) => r.stepId, sel, j);
      WhereAppend(rows, c, sel);
      WhereNone(rows, sel);
      assert Where(rows, sel) == [];
    }
    SortByIndexed(ImageBatch(b, steps[j]), ImageOrder);
  }

  lemma SkillsBack(a: Tables, rows: seq<SkillRow>, n: nat, sb: nat, steps: seq<StepInput>, j: nat)
    requires SkillsValid(rows, n) && n <= sb && j < |steps|
    requires a.skills == rows + ChildRowsFrom(sb, steps, SkillBatch)
    ensures var b := StepBase(sb, steps, j);
            SkillsOf(a, IdText(b)) == SkillBatch(b, steps[j])
  {
    var b := StepBase(sb, steps, j);
    var sel := SkillIn(IdText(b));
    var c := ChildRowsFrom(sb, steps, SkillBatch);
    assert Where(rows + c, sel) == SkillBatch(b, steps[j]) by {
      forall r | r in rows ensures !sel(r) {
        FreshId(r.stepId, n, b);
      }
      SkillBatchParents();
      ChildRowsOfStep(sb, steps, SkillBatch, (r: SkillRow) => r.stepId, sel, j);
      WhereAppend(rows, c, sel);
      WhereNone(rows, sel);
      assert Where(rows, sel) == [];
    }
    SortByIndexed(SkillBatch(b, steps[j]), SkillOrder);
  }

  /** Step `j`'s warning rows: none of the old rows, and exactly the batch written for it. */
  lemma WarningRowsBack(a: Tables, rows: seq<WarningRow>, n: nat, sb: nat, steps: seq<StepInput>, j: nat)
    requires WarningsValid(rows, n) && n <= sb && j < |steps|
    requires a.warnings == rows + ChildRowsFrom(sb, steps, WarningBatch)
    ensures var b := StepBase(sb, steps, j);
            WarningsOf(a, IdText(b)) == WarningBatch(b, steps[j])
  {
    var b := StepBase(sb, steps, j);
    var sel := WarningIn(IdText(b));
    var c := ChildRowsFrom(sb, steps, WarningBatch);
    assert Where(rows + c, sel) == WarningBatch(b, steps[j]) by {
      forall r | r in rows ensures !sel(r) {
        FreshId(r.stepId, n, b);
      }
      WarningBatchParents();
      ChildRowsOfStep(sb, steps, WarningBatch, (r: WarningRow) => r.stepId, sel, j);
      WhereAppend(rows, c, sel);
      WhereNone(rows, sel);
      assert Where(rows, sel) == [];
    }
    SortByIndexed(WarningBatch(b, steps[j]), WarningOrder);
  }

  /** A step's warnings decode back to the inputs, each PPE list read from its JSON column. */
  lemma WarningBatchDecodes(b: nat, s: StepInput)
    ensures DecodeEach(WarningBatch(b, s), DecodeWarning)
              == Ok(WarningViews(IdText(b), b + 1 + |s.imageUrls| + |s.skills|, s.warnings))
  {
    var batch := WarningBatch(b, s);
    var views := WarningViews(IdText(b), b + 1 + |s.imageUrls| + |s.skills|, s.warnings);
    forall i | 0 <= i < |batch| ensures DecodeWarning(batch[i]) == Ok(views[i]) {
      PpeColumnRoundTrip(s.warnings[i].ppeRequired);
    }
    DecodeEachAll(batch, DecodeWarning, views);
  }

  // ---- The steps ----

  /** What `getTutorialById` assembles for a step row whose warnings and measurements decode. */
  lemma StepDetailsAre(a: Tables, row: StepRow, measurements: seq<Measurement>, warnings: seq<WarningView>)
    requires DecodeEach(WarningsOf(a, row.id), DecodeWarning) == Ok(warnings)
    requires ReadMeasurements(row.measurementsJson) == Ok(measurements)
    ensures StepDetails(a, row)
              == Ok(StepView(row.id, row.tutorialId, row.stepNumber, row.title, row.instructions, row.tips,
                             measurements, ImagesOf(a, row.id), SkillsOf(a, row.id), warnings))
  {
  }

  /** A step view with the step's own batches is the step's expected view. */
  lemma StepViewFields(b: nat, tid: string, s: StepInput, images: seq<StepImageRow>, skills: seq<SkillRow>)
    requires images == ImageBatch(b, s) && skills == SkillBatch(b, s)
    ensures StepView(IdText(b), tid, s.stepNumber, s.title, s.instructions, NullIfEmpty(s.tips), s.measurements,
                     images, skills, WarningViews(IdText(b), b + 1 + |s.imageUrls| + |s.skills|, s.warnings))
              == StepViewOf(b, tid, s)
  {
  }

  /** A step row whose images, skills and warnings read back as its batches reads back as its input. */
  lemma StepDetailsOf(a: Tables, b: nat, tid: string, s: StepInput)
    requires ImagesOf(a, IdText(b)) == ImageBatch(b, s) && SkillsOf(a, IdText(b)) == SkillBatch(b, s)
    requires DecodeEach(WarningsOf(a, IdText(b)), DecodeWarning)
               == Ok(WarningViews(IdText(b), b + 1 + |s.imageUrls| + |s.skills|, s.warnings))
    ensures StepDetails(a, StepRowOf(IdText(b), tid, s)) == Ok(StepViewOf(b, tid, s))
  {
    var row := StepRowOf(IdText(b), tid, s);
    MeasurementsColumnRoundTrip(s.measurements);
    StepDetailsAre(a, row, s.measurements, WarningViews(IdText(b), b + 1 + |s.imageUrls| + |s.skills|, s.warnings));
    StepViewFields(b, tid, s, ImagesOf(a, IdText(b)), SkillsOf(a, IdText(b)));
  }

  /** Step `j`, as `getTutorialById` assembles it after the add, is that step's input. */
  lemma StepBack(t: Tables, n: nat, x: TutorialInput, gs: seq<GlossaryInput>, ms: seq<MaterialInput>,
                 ts: seq<ToolInput>, steps: seq<StepInput>, j: nat)
    requires TablesValid(t, n) && j < |steps|
    ensures var tid := IdText(n);
            var sb := StepsBase(n, gs, ms, ts);
            StepDetails(AddTutorialRows(t, n, x, gs, ms, ts, steps), StepRowsFrom(tid, sb, steps)[j])
              == Ok(StepViewsFrom(tid, sb, steps)[j])
  {
    var tid := IdText(n);
    var sb := StepsBase(n, gs, ms, ts);
    var a := AddTutorialRows(t, n, x, gs, ms, ts, steps);
    var b := StepBase(sb, steps, j);
    var s := steps[j];
    assert ImagesOf(a, IdText(b)) == ImageBatch(b, s) by {
      AddedTables(t, n, x, gs, ms, ts, steps);
      ImagesBack(a, t.stepImages, n, sb, steps, j);
    }
    assert SkillsOf(a, IdText(b)) == SkillBatch(b, s) by {
      AddedTables(t, n, x, gs, ms, ts, steps);
      SkillsBack(a, t.skills, n, sb, steps, j);
    }
    assert WarningsOf(a, IdText(b)) == WarningBatch(b, s) by {
      AddedTables(t, n, x, gs, ms, ts, steps);
      WarningRowsBack(a, t.warnings, n, sb, steps, j);
    }
    WarningBatchDecodes(b, s);
    StepDetailsOf(a, b, tid, s);
    StepRowAt(tid, sb, steps, j);
    StepViewAt(tid, sb, steps, j);
  }

  /** The added tutorial's step rows are exactly the ones the step loop wrote. */
  lemma StepRowsBack(t: Tables, n: nat, x: TutorialInput, gs: seq<GlossaryInput>, ms: seq<MaterialInput>,
                     ts: seq<ToolInput>, steps: seq<StepInput>)
    requires TablesValid(t, n)
    ensures var tid := IdText(n);
            Where(AddTutorialRows(t, n, x, gs, ms, ts, steps).steps, StepIn(tid))
              == StepRowsFrom(tid, StepsBase(n, gs, ms, ts), steps)
  {
    var tid := IdText(n);
    var added := StepRowsFrom(tid, StepsBase(n, gs, ms, ts), steps);
    AddedTables(t, n, x, gs, ms, ts, steps);
    forall r | r in t.steps ensures r.tutorialId != tid {
      FreshId(r.tutorialId, n, n);
    }
    forall r | r in added ensures r.tutorialId == tid {
      var j :| 0 <= j < |added| && added[j] == r;
      StepRowAt(tid, StepsBase(n, gs, ms, ts), steps, j);
    }
    WhereFresh(t.steps, added, StepIn(tid));
  }

  /** The steps read back with their details, ordered by `step_number`. */
  lemma StepsBack(t: Tables, n: nat, x: TutorialInput, gs: seq<GlossaryInput>, ms: seq<MaterialInput>,
                  ts: seq<ToolInput>, steps: seq<StepInput>)
    requires TablesValid(t, n)
    ensures var a := AddTutorialRows(t, n, x, gs, ms, ts, steps);
            var tid := IdText(n);
            DecodeEach(StepsOf(a, tid), StepDecoder(a))
              == Ok(SortBy(StepViewsFrom(tid, StepsBase(n, gs, ms, ts), steps), StepViewOrder))
  {
    var a := AddTutorialRows(t, n, x, gs, ms, ts, steps);
    var tid := IdText(n);
    var sb := StepsBase(n, gs, ms, ts);
    var rows := StepRowsFrom(tid, sb, steps);
    var views := StepViewsFrom(tid, sb, steps);
    StepRowsBack(t, n, x, gs, ms, ts, steps);
    forall j | 0 <= j < |rows| ensures StepDecoder(a)(rows[j]) == Ok(views[j]) {
      StepBack(t, n, x, gs, ms, ts, steps, j);
    }
    DecodeEachAll(rows, StepDecoder(a), views);
    DecodeEachSortBy(rows, StepDecoder(a), StepOrder, StepViewOrder);
  }

  /** `getTutorialById` on a tutorial whose children all read back assembles them, in order. */
  lemma TutorialDetailsOf(a: Tables, tid: string, row: TutorialRow, glossary: seq<GlossaryRow>,
                          materials: seq<MaterialView>, tools: seq<ToolView>, steps: seq<StepView>)
    requires FirstWhere(a.tutorials, TutorialIs(tid)) == Some(row)
    requires GlossaryOf(a, tid) == glossary && DecodeTools(ToolsOf(a, tid)) == tools
    requires DecodeEach(MaterialsOf(a, tid), DecodeMaterial) == Ok(materials)
    requires DecodeEach(StepsOf(a, tid), StepDecoder(a)) == Ok(steps)
    ensures TutorialDetails(a, tid) == Ok(Some(TutorialView(row, glossary, materials, tools, steps)))
  {
  }

  // ---- The whole tutorial ----

  lemma TutorialRowBack(a: Tables, rows: seq<TutorialRow>, tid: string, x: TutorialInput)
    requires Where(rows, TutorialIs(tid)) == [] && a.tutorials == rows + [TutorialRowOf(tid, x)]
    ensures FirstWhere(a.tutorials, TutorialIs(tid)) == Some(TutorialRowOf(tid, x))
  {
    forall r | r in rows ensures !TutorialIs(tid)(r) {
      assert r !in Where(rows, TutorialIs(tid));
    }
    FirstWhereAfter(rows, [TutorialRowOf(tid, x)], TutorialIs(tid));
  }

  /** Tables from which every part of the added tutorial reads back give back the whole tutorial. */
  lemma AddedParts(a: Tables, n: nat, x: TutorialInput, gs: seq<GlossaryInput>,
                   ms: seq<MaterialInput>, ts: seq<ToolInput>, steps: seq<StepInput>)
    requires FirstWhere(a.tutorials, TutorialIs(IdText(n))) == Some(TutorialRowOf(IdText(n), x))
    requires GlossaryOf(a, IdText(n)) == GlossaryRows(IdText(n), n + 1, gs)
    requires DecodeEach(MaterialsOf(a, IdText(n)), DecodeMaterial) == Ok(MaterialViews(IdText(n), n + 1 + |gs|, ms))
    requires DecodeTools(ToolsOf(a, IdText(n))) == ToolViews(IdText(n), n + 1 + |gs| + |ms|, ts)
    requires DecodeEach(StepsOf(a, IdText(n)), StepDecoder(a))
               == Ok(SortBy(StepViewsFrom(IdText(n), StepsBase(n, gs, ms, ts), steps), StepViewOrder))
    ensures TutorialDetails(a, IdText(n)) == Ok(Some(AddedView(n, x, gs, ms, ts, steps)))
  {
  }

  /** On valid tables no tutorial, glossary, material or tool row belongs to the next id. */
  lemma TablesFresh(t: Tables, n: nat)
    requires TablesValid(t, n)
    ensures Where(t.tutorials, TutorialIs(IdText(n))) == []
    ensures Where(t.glossary, GlossaryIn(IdText(n))) == []
    ensures Where(t.materials, MaterialIn(IdText(n))) == []
    ensures Where(t.tools, ToolIn(IdText(n))) == []
  {
    var tid := IdText(n);
    forall r | r in t.tutorials ensures !TutorialIs(tid)(r) {
      FreshId(r.id, n, n);
    }
    forall r | r in t.glossary ensures !GlossaryIn(tid)(r) {
      FreshId(r.tutorialId, n, n);
    }
    forall r | r in t.materials ensures !MaterialIn(tid)(r) {
      FreshId(r.tutorialId, n, n);
    }
    forall r | r in t.tools ensures !ToolIn(tid)(r) {
      FreshId(r.tutorialId, n, n);
    }
    WhereNone(t.tutorials, TutorialIs(tid));
    WhereNone(t.glossary, GlossaryIn(tid));
    WhereNone(t.materials, MaterialIn(tid));
    WhereNone(t.tools, ToolIn(tid));
  }

  /** The read-back after `addTutorial`, given that no earlier row of the four lists has the new id. */
  lemma AddThenReadFresh(t: Tables, n: nat, x: TutorialInput, gs: seq<GlossaryInput>, ms: seq<MaterialInput>,
                         ts: seq<ToolInput>, steps: seq<StepInput>)
    requires Where(t.tutorials, TutorialIs(IdText(n))) == [] && Where(t.glossary, GlossaryIn(IdText(n))) == []
    requires Where(t.materials, MaterialIn(IdText(n))) == [] && Where(t.tools, ToolIn(IdText(n))) == []
    requires var a := AddTutorialRows(t, n, x, gs, ms, ts, steps);
             DecodeEach(StepsOf(a, IdText(n)), StepDecoder(a))
               == Ok(SortBy(StepViewsFrom(IdText(n), StepsBase(n, gs, ms, ts), steps), StepViewOrder))
    ensures TutorialDetails(AddTutorialRows(t, n, x, gs, ms, ts, steps), IdText(n))
              == Ok(Some(AddedView(n, x, gs, ms, ts, steps)))
  {
    var a := AddTutorialRows(t, n, x, gs, ms, ts, steps);
    var tid := IdText(n);
    assert && a.tutorials == t.tutorials + [TutorialRowOf(tid, x)]
           && a.glossary == t.glossary + GlossaryRows(tid, n + 1, gs)
           && a.materials == t.materials + MaterialRows(tid, n + 1 + |gs|, ms)
           && a.tools == t.tools + ToolRows(tid, n + 1 + |gs| + |ms|, ts) by {
      AddedTables(t, n, x, gs, ms, ts, steps);
    }
    TutorialRowBack(a, t.tutorials, tid, x);
    GlossaryBack(a, t.glossary, tid, n + 1, gs);
    MaterialsBack(a, t.materials, tid, n, gs, ms);
    ToolsBack(a, t.tools, tid, n, gs, ms, ts);
    AddedParts(a, n, x, gs, ms, ts, steps);
  }

  /**
   * `getTutorialById(id)` right after `addTutorial` returned `id` gives back the tutorial as it was
   * added: the new id is fresh, so no row stored earlier joins in.
   */
  lemma AddThenRead(t: Tables, n: nat, x: TutorialInput, gs: seq<GlossaryInput>, ms: seq<MaterialInput>,
                    ts: seq<ToolInput>, steps: seq<StepInput>)
    requires TablesValid(t, n)
    ensures TutorialDetails(AddTutorialRows(t, n, x, gs, ms, ts, steps), IdText(n))
              == Ok(Some(AddedView(n, x, gs, ms, ts, steps)))
  {
    TablesFresh(t, n);
    StepsBack(t, n, x, gs, ms, ts, steps);
    AddThenReadFresh(t, n, x, gs, ms, ts, steps);
  }
}
