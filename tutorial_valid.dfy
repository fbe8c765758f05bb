/**
 * The invariant `TablesValid` is kept by every write of the DIY viewer's database layer, and on
 * valid tables `getTutorialById` never meets a JSON column it cannot parse.
 */
module TutorialValidity {
  import opened Wrappers
  import opened Table
  import opened StoredJson
  import opened TutorialRows
  import opened TutorialPlan
  import opened TutorialBatches

  /** More ids handed out keeps every earlier id issued. */
  lemma ValidLater(t: Tables, n: nat, m: nat)
    requires TablesValid(t, n) && n <= m
    ensures TablesValid(t, m)
  {
  }

  // ---- addTutorial ----

  lemma ImageBatchIds()
    ensures forall b: nat, s: StepInput, x :: x in ImageBatch(b, s) ==>
      IdBetween(x.id, b, b + StepIdCount(s)) && IdBetween(x.stepId, b, b + StepIdCount(s))
  {
    forall b: nat, s: StepInput, x | x in ImageBatch(b, s)
      ensures IdBetween(x.id, b, b + StepIdCount(s)) && IdBetween(x.stepId, b, b + StepIdCount(s))
    {
      var i :| 0 <= i < |s.imageUrls| && ImageBatch(b, s)[i] == x;
      IdTextBetween(b + 1 + i, b, b + StepIdCount(s));
      IdTextBetween(b, b, b + StepIdCount(s));
    }
  }

  lemma SkillBatchIds()
    ensures forall b: nat, s: StepInput, x :: x in SkillBatch(b, s) ==>
      IdBetween(x.id, b, b + StepIdCount(s)) && IdBetween(x.stepId, b, b + StepIdCount(s))
  {
    forall b: nat, s: StepInput, x | x in SkillBatch(b, s)
      ensures IdBetween(x.id, b, b + StepIdCount(s)) && IdBetween(x.stepId, b, b + StepIdCount(s))
    {
      var i :| 0 <= i < |s.skills| && SkillBatch(b, s)[i] == x;
      IdTextBetween(b + 1 + |s.imageUrls| + i, b, b + StepIdCount(s));
      IdTextBetween(b, b, b + StepIdCount(s));
    }
  }

  lemma WarningBatchIds()
    ensures forall b: nat, s: StepInput, x :: x in WarningBatch(b, s) ==>
      IdBetween(x.id, b, b + StepIdCount(s)) && IdBetween(x.stepId, b, b + StepIdCount(s))
      && ReadPpe(x.ppeRequiredJson).Ok?
  {
    forall b: nat, s: StepInput, x | x in WarningBatch(b, s)
      ensures IdBetween(x.id, b, b + StepIdCount(s)) && IdBetween(x.stepId, b, b + StepIdCount(s))
      ensures ReadPpe(x.ppeRequiredJson).Ok?
    {
      var i :| 0 <= i < |s.warnings| && WarningBatch(b, s)[i] == x;
      WarningBatchAt(b, s, i);
    }
  }

  lemma WarningBatchAt(b: nat, s: StepInput, i: nat)
    requires i < |s.warnings|
    ensures var x := WarningBatch(b, s)[i];
            IdBetween(x.id, b, b + StepIdCount(s)) && IdBetween(x.stepId, b, b + StepIdCount(s))
            && ReadPpe(x.ppeRequiredJson).Ok?
  {
    IdTextBetween(b + 1 + |s.imageUrls| + |s.skills| + i, b, b + StepIdCount(s));
    IdTextBetween(b, b, b + StepIdCount(s));
    PpeColumnRoundTrip(s.warnings[i].ppeRequired);
  }

  lemma StepRowsValid(tid: string, base: nat, steps: seq<StepInput>, m: nat)
    requires Issued(tid, m) && base + StepsIdCount(steps) <= m
    ensures StepsValid(StepRowsFrom(tid, base, steps), m)
  {
    forall r | r in StepRowsFrom(tid, base, steps)
      ensures Issued(r.id, m) && Issued(r.tutorialId, m) && ReadMeasurements(r.measurementsJson).Ok?
    {
      var j :| 0 <= j < |steps| && StepRowsFrom(tid, base, steps)[j] == r;
      StepRowAt(tid, base, steps, j);
      StepsIdCountPrefix(steps, j);
      IdTextIssued(StepBase(base, steps, j), m);
      MeasurementsColumnRoundTrip(steps[j].measurements);
    }
  }

  lemma ImageRowsValid(base: nat, steps: seq<StepInput>, m: nat)
    requires base + StepsIdCount(steps) <= m
    ensures ImagesValid(ChildRowsFrom(base, steps, ImageBatch), m)
  {
    ImageBatchIds();
    ChildRowsKeys(base, steps, ImageBatch, (x: StepImageRow) => x.id);
    ChildRowsKeys(base, steps, ImageBatch, (x: StepImageRow) => x.stepId);
  }

  lemma SkillRowsValid(base: nat, steps: seq<StepInput>, m: nat)
    requires base + StepsIdCount(steps) <= m
    ensures SkillsValid(ChildRowsFrom(base, steps, SkillBatch), m)
  {
    SkillBatchIds();
    ChildRowsKeys(base, steps, SkillBatch, (x: SkillRow) => x.id);
    ChildRowsKeys(base, steps, SkillBatch, (x: SkillRow) => x.stepId);
  }

  lemma WarningRowsValid(base: nat, steps: seq<StepInput>, m: nat)
    requires base + StepsIdCount(steps) <= m
    ensures WarningsValid(ChildRowsFrom(base, steps, WarningBatch), m)
  {
    WarningBatchIds();
    ChildRowsKeys(base, steps, WarningBatch, (x: WarningRow) => x.id);
    ChildRowsKeys(base, steps, WarningBatch, (x: WarningRow) => x.stepId);
    ChildRowsAll(base, steps, WarningBatch, (x: WarningRow) => ReadPpe(x.ppeRequiredJson).Ok?);
  }

  /** The rows of the step loop: ids from the counter range it used, parseable JSON. */
  lemma StepsLoopValid(t: Tables, tid: string, base: nat, steps: seq<StepInput>, m: nat)
    requires TablesValid(t, m) && Issued(tid, m) && base + StepsIdCount(steps) <= m
    ensures TablesValid(AddStepsRows(t, tid, base, steps), m)
  {
    AddStepsRowsTables(t, tid, base, steps);
    StepRowsValid(tid, base, steps, m);
    ImageRowsValid(base, steps, m);
    SkillRowsValid(base, steps, m);
    WarningRowsValid(base, steps, m);
  }

  lemma GlossaryRowsValid(tid: string, base: nat, gs: seq<GlossaryInput>, m: nat)
    requires Issued(tid, m) && base + |gs| <= m
    ensures GlossaryValid(GlossaryRows(tid, base, gs), m)
  {
    forall r | r in GlossaryRows(tid, base, gs) ensures Issued(r.id, m) {
      var i :| 0 <= i < |gs| && GlossaryRows(tid, base, gs)[i] == r;
      IdTextIssued(base + i, m);
    }
  }

  lemma MaterialRowsValid(tid: string, base: nat, ms: seq<MaterialInput>, m: nat)
    requires Issued(tid, m) && base + |ms| <= m
    ensures MaterialsValid(MaterialRows(tid, base, ms), m)
  {
    forall r | r in MaterialRows(tid, base, ms)
      ensures Issued(r.id, m) && ReadMeasurementColumn(r.measurementJson).Ok?
    {
      var i :| 0 <= i < |ms| && MaterialRows(tid, base, ms)[i] == r;
      IdTextIssued(base + i, m);
      MeasurementColumnRoundTrip(ms[i].measurement);
    }
  }

  lemma ToolRowsValid(tid: string, base: nat, ts: seq<ToolInput>, m: nat)
    requires Issued(tid, m) && base + |ts| <= m
    ensures ToolsValid(ToolRows(tid, base, ts), m)
  {
    forall r | r in ToolRows(tid, base, ts) ensures Issued(r.id, m) {
      var i :| 0 <= i < |ts| && ToolRows(tid, base, ts)[i] == r;
      IdTextIssued(base + i, m);
    }
  }

  /** The tutorial row and its glossary, materials and tools rows. */
  lemma ListsValid(t: Tables, n: nat, x: TutorialInput, gs: seq<GlossaryInput>, ms: seq<MaterialInput>,
                   ts: seq<ToolInput>, m: nat)
    requires TablesValid(t, n) && n + 1 + |gs| + |ms| + |ts| <= m
    ensures var tid := IdText(n);
            TablesValid(AddToolRows(AddMaterialRows(AddGlossaryRows(AddTutorialRow(t, tid, x), tid, n + 1, gs),
                                                    tid, n + 1 + |gs|, ms), tid, n + 1 + |gs| + |ms|, ts), m)
  {
    var tid := IdText(n);
    ValidLater(t, n, m);
    IdTextIssued(n, m);
    assert GlossaryValid(GlossaryRows(tid, n + 1, gs), m) by {
      GlossaryRowsValid(tid, n + 1, gs, m);
    }
    assert MaterialsValid(MaterialRows(tid, n + 1 + |gs|, ms), m) by {
      MaterialRowsValid(tid, n + 1 + |gs|, ms, m);
    }
    assert ToolsValid(ToolRows(tid, n + 1 + |gs| + |ms|, ts), m) by {
      ToolRowsValid(tid, n + 1 + |gs| + |ms|, ts, m);
    }
  }

  lemma StepsLoopValidAll(t: Tables, tid: string, steps: seq<StepInput>)
    ensures forall base: nat, m: nat :: TablesValid(t, m) && Issued(tid, m) && base + StepsIdCount(steps) <= m ==>
              TablesValid(AddStepsRows(t, tid, base, steps), m)
  {
    forall base: nat, m: nat | TablesValid(t, m) && Issued(tid, m) && base + StepsIdCount(steps) <= m
      ensures TablesValid(AddStepsRows(t, tid, base, steps), m)
    {
      StepsLoopValid(t, tid, base, steps, m);
    }
  }

  /** The step inserts that follow the four lists of `addTutorial` keep the invariant. */
  lemma StepsAfterListsValid(t4: Tables, tid: string, n: nat, gs: seq<GlossaryInput>, ms: seq<MaterialInput>,
                             ts: seq<ToolInput>, steps: seq<StepInput>)
    requires TablesValid(t4, n + AddIdCount(gs, ms, ts, steps)) && Issued(tid, n + AddIdCount(gs, ms, ts, steps))
    ensures TablesValid(AddStepsRows(t4, tid, n + 1 + |gs| + |ms| + |ts|, steps), n + AddIdCount(gs, ms, ts, steps))
  {
    StepsLoopValidAll(t4, tid, steps);
  }

  /** `addTutorial` keeps the invariant, with the counter advanced past every id it used. */
  lemma AddKeepsValid(t: Tables, n: nat, x: TutorialInput, gs: seq<GlossaryInput>, ms: seq<MaterialInput>,
                      ts: seq<ToolInput>, steps: seq<StepInput>)
    requires TablesValid(t, n)
    ensures TablesValid(AddTutorialRows(t, n, x, gs, ms, ts, steps), n + AddIdCount(gs, ms, ts, steps))
  {
    var tid := IdText(n);
    var t4 := AddToolRows(AddMaterialRows(AddGlossaryRows(AddTutorialRow(t, tid, x), tid, n + 1, gs),
                                          tid, n + 1 + |gs|, ms), tid, n + 1 + |gs| + |ms|, ts);
    assert TablesValid(t4, n + AddIdCount(gs, ms, ts, steps)) by {
      ListsValid(t, n, x, gs, ms, ts, n + AddIdCount(gs, ms, ts, steps));
    }
    assert Issued(tid, n + AddIdCount(gs, ms, ts, steps)) by {
      IdTextIssued(n, n + AddIdCount(gs, ms, ts, steps));
    }
    StepsAfterListsValid(t4, tid, n, gs, ms, ts, steps);
  }

  // ---- deleteTutorial ----

  /** `deleteTutorial` only removes rows, so the invariant survives. */
  lemma DeleteKeepsValid(t: Tables, n: nat, id: string)
    requires TablesValid(t, n)
    ensures TablesValid(DeleteTutorialRows(t, id), n)
  {
  }

  // ---- Checklist ----

  lemma AddToChecklistKeepsValid(t: Tables, n: nat, item: ChecklistInput)
    requires TablesValid(t, n)
    ensures TablesValid(t.(checklist := t.checklist + [ChecklistRowOf(IdText(n), item)]), n + 1)
  {
    IdTextIssued(n, n + 1);
  }

  lemma ToggleKeepsValid(t: Tables, n: nat, id: string)
    requires TablesValid(t, n)
    ensures TablesValid(t.(checklist := ToggleRows(t.checklist, id)), n)
  {
    var rows := ToggleRows(t.checklist, id);
    forall r | r in rows ensures Issued(r.id, n) && (r.checked == 0 || r.checked == 1) {
      var i :| 0 <= i < |rows| && rows[i] == r;
      assert t.checklist[i] in t.checklist;
    }
  }

  lemma RemoveKeepsValid(t: Tables, n: nat, id: string)
    requires TablesValid(t, n)
    ensures TablesValid(t.(checklist := Where(t.checklist, ChecklistIsNot(id))), n)
  {
  }

  lemma ItemRowsIssued(base: nat, items: seq<ChecklistInput>)
    ensures forall r :: r in ItemRows(base, items) ==> Issued(r.id, base + |items|) && r.checked == 0
    decreases |items|
  {
    if items != [] {
      ItemRowsIssued(base, items[..|items| - 1]);
      IdTextIssued(base + |items| - 1, base + |items|);
    }
  }

  lemma AddTutorialToChecklistKeepsValid(t: Tables, n: nat, tid: string)
    requires TablesValid(t, n)
    ensures var entries := TutorialEntries(t, tid);
            TablesValid(t.(checklist := t.checklist + ItemRows(n, entries)), n + |entries|)
  {
    ItemRowsIssued(n, TutorialEntries(t, tid));
    ValidLater(t, n, n + |TutorialEntries(t, tid)|);
  }

  // ---- Reads on valid tables ----

  lemma SortedMember<T(!new)>(rows: seq<T>, key: T -> int, x: T)
    requires x in SortBy(rows, key)
    ensures x in rows
  {
    SortByOrders(rows, key);
    assert x in multiset(SortBy(rows, key));
  }

  /** On valid tables every step of a tutorial reads back without a parse failure. */
  lemma StepDetailsSucceed(t: Tables, n: nat, s: StepRow)
    requires TablesValid(t, n) && s in t.steps
    ensures StepDetails(t, s).Ok?
  {
    var rows := WarningsOf(t, s.id);
    forall i | 0 <= i < |rows| ensures DecodeWarning(rows[i]).Ok? {
      SortedMember(Where(t.warnings, WarningIn(s.id)), WarningOrder, rows[i]);
    }
  }

  /** On tables the app wrote itself, `getTutorialById` never throws. */
  lemma ValidReadsSucceed(t: Tables, n: nat, id: string)
    requires TablesValid(t, n)
    ensures TutorialDetails(t, id).Ok?
  {
    var materials := MaterialsOf(t, id);
    forall i | 0 <= i < |materials| ensures DecodeMaterial(materials[i]).Ok? {
      SortedMember(Where(t.materials, MaterialIn(id)), MaterialOrder, materials[i]);
    }
    var steps := StepsOf(t, id);
    forall i | 0 <= i < |steps| ensures StepDecoder(t)(steps[i]).Ok? {
      SortedMember(Where(t.steps, StepIn(id)), StepOrder, steps[i]);
      StepDetailsSucceed(t, n, steps[i]);
    }
  }
}
