/**
 * The DIY viewer's database layer: every exported operation of the module, as a method of a
 * database object whose state is the tables and the id supply. Each method is specified by the
 * plan or read function it must agree with.
 */
module TutorialDb {
  import opened Wrappers
  import opened Table
  import opened StoredJson
  import opened TutorialRows
  import opened TutorialPlan
  import opened TutorialValidity

  /** The states `addTutorial` passes through, from the tutorial row to the step inserts. */
  lemma AddTutorialSteps(t: Tables, n: nat, x: TutorialInput, gs: seq<GlossaryInput>, ms: seq<MaterialInput>,
                         ts: seq<ToolInput>, steps: seq<StepInput>, t1: Tables, n1: nat, t4: Tables, n4: nat)
    requires n1 == n + 1 && t1 == AddTutorialRow(t, IdText(n), x)
    requires n4 == n1 + |gs| + |ms| + |ts|
    requires t4 == AddToolRows(AddMaterialRows(AddGlossaryRows(t1, IdText(n), n1, gs), IdText(n), n1 + |gs|, ms),
                               IdText(n), n1 + |gs| + |ms|, ts)
    ensures AddStepsRows(t4, IdText(n), n4, steps) == AddTutorialRows(t, n, x, gs, ms, ts, steps)
  {
    assert n1 + |gs| == n + 1 + |gs|;
    assert n1 + |gs| + |ms| == n + 1 + |gs| + |ms|;
    assert n4 == n + 1 + |gs| + |ms| + |ts|;
  }

  /**
   * The two copy loops of `addTutorialToChecklist`: the materials, then the required tools as
   * queried after the first loop, add exactly the tutorial's entries with ids from the counter.
   */
  lemma CopyToChecklistPlan(t0: Tables, n0: nat, n1: nat, tid: string)
    requires n1 == n0 + |ChecklistMaterials(t0, tid)|
    ensures var mid := t0.(checklist := t0.checklist + ItemRows(n0, MaterialEntries(tid, ChecklistMaterials(t0, tid))));
            mid.(checklist := mid.checklist + ItemRows(n1, ToolEntries(tid, ChecklistTools(mid, tid))))
            == t0.(checklist := t0.checklist + ItemRows(n0, TutorialEntries(t0, tid)))
  {
    var entries := MaterialEntries(tid, ChecklistMaterials(t0, tid));
    var more := ToolEntries(tid, ChecklistTools(t0, tid));
    ItemRowsTwice(t0.checklist, n0, n1, entries, more);
  }

  class TutorialDatabase {
    var tables: Tables
    /** How many ids `generateId` has handed out. */
    var nextId: nat

    ghost predicate Valid()
      reads this
    {
      TablesValid(tables, nextId)
    }

    constructor ()
      ensures tables == NoTables && nextId == 0
      ensures Valid()
    {
      tables := NoTables;
      nextId := 0;
    }

    /** `generateId`: an id that differs from every id handed out before. */
    method GenerateId() returns (id: string)
      modifies this
      ensures id == IdText(old(nextId)) && nextId == old(nextId) + 1 && tables == old(tables)
    {
      id := IdText(nextId);
      nextId := nextId + 1;
    }

    /** `getTutorials`: every tutorial, the most recently added first. */
    method GetTutorials() returns (r: seq<TutorialRow>)
      ensures |r| == |tables.tutorials|
      ensures forall i :: 0 <= i < |r| ==> r[i] == tables.tutorials[|r| - 1 - i]
    {
      r := NewestFirst(tables.tutorials);
    }

    /** `getTutorialById`; Err stands for the exception a malformed JSON column raises. */
    method GetTutorialById(id: string) returns (r: Result<Option<TutorialView>, ParseFailure>)
      ensures r == TutorialDetails(tables, id)
    {
      var found := FirstWhere(tables.tutorials, TutorialIs(id));
      if found.None? {
        r := Ok(None);
      } else {
        var glossary := GlossaryOf(tables, id);
        var materials := DecodeEach(MaterialsOf(tables, id), DecodeMaterial);
        var tools := DecodeTools(ToolsOf(tables, id));
        var steps := StepsWithDetails(StepsOf(tables, id));
        if materials.Err? {
          r := Err(materials.error);
        } else if steps.Err? {
          r := Err(steps.error);
        } else {
          r := Ok(Some(TutorialView(found.value, glossary, materials.value, tools, steps.value)));
        }
      }
    }

    /** The step loop of `getTutorialById`: each step with its images, skills and warnings. */
    method StepsWithDetails(stepRows: seq<StepRow>) returns (r: Result<seq<StepView>, ParseFailure>)
      ensures r == DecodeEach(stepRows, StepDecoder(tables))
    {
      var steps: seq<StepView> := [];
      var i := 0;
      while i < |stepRows|
        invariant 0 <= i <= |stepRows|
        invariant DecodeEach(stepRows[..i], StepDecoder(tables)) == Ok(steps)
      {
        var view := StepDetails(tables, stepRows[i]);
        assert StepDecoder(tables)(stepRows[i]) == view;
        if view.Err? {
          DecodeEachFirstError(stepRows, i, StepDecoder(tables));
          return Err(view.error);
        }
        DecodeEachNext(stepRows, i, StepDecoder(tables));
        steps := steps + [view.value];
        i := i + 1;
      }
      assert stepRows[..i] == stepRows;
      r := Ok(steps);
    }

    /** `addTutorial`: the tutorial row, then its glossary, materials, tools and steps. */
    method AddTutorial(x: TutorialInput, gs: seq<GlossaryInput>, ms: seq<MaterialInput>,
                       ts: seq<ToolInput>, steps: seq<StepInput>) returns (tid: string)
      requires Valid()
      modifies this
      ensures Valid()
      ensures tid == IdText(old(nextId))
      ensures tables == AddTutorialRows(old(tables), old(nextId), x, gs, ms, ts, steps)
      ensures nextId == old(nextId) + AddIdCount(gs, ms, ts, steps)
    {
      ghost var t0, n0 := tables, nextId;
      tid := GenerateId();
      tables := AddTutorialRow(tables, tid, x);
      ghost var t1, n1 := tables, nextId;
      InsertLists(tid, gs, ms, ts);
      ghost var t4, n4 := tables, nextId;
      InsertSteps(tid, steps);
      AddTutorialSteps(t0, n0, x, gs, ms, ts, steps, t1, n1, t4, n4);
      AddKeepsValid(t0, n0, x, gs, ms, ts, steps);
      assert TablesValid(tables, nextId);
    }

    /** The glossary, materials and tools loops of `addTutorial`. */
    method InsertLists(tid: string, gs: seq<GlossaryInput>, ms: seq<MaterialInput>, ts: seq<ToolInput>)
      modifies this
      ensures tables == AddToolRows(AddMaterialRows(AddGlossaryRows(old(tables), tid, old(nextId), gs),
                                                    tid, old(nextId) + |gs|, ms),
                                    tid, old(nextId) + |gs| + |ms|, ts)
      ensures nextId == old(nextId) + |gs| + |ms| + |ts|
    {
      InsertGlossary(tid, gs);
      InsertMaterials(tid, ms);
      InsertTools(tid, ts);
    }

    method InsertGlossary(tid: string, gs: seq<GlossaryInput>)
      modifies this
      ensures tables == AddGlossaryRows(old(tables), tid, old(nextId), gs)
      ensures nextId == old(nextId) + |gs|
    {
      ghost var rows := GlossaryRows(tid, nextId, gs);
      var i := 0;
      while i < |gs|
        invariant 0 <= i <= |gs| && nextId == old(nextId) + i
        invariant tables == old(tables).(glossary := old(tables).glossary + rows[..i])
      {
        var id := GenerateId();
        var term := gs[i];
        tables := tables.(glossary := tables.glossary
          + [GlossaryRow(id, tid, term.term, term.definition, NullIfEmpty(term.context), i)]);
        assert rows[..i + 1] == rows[..i] + [rows[i]];
        i := i + 1;
      }
      assert rows[..i] == rows;
    }

    method InsertMaterials(tid: string, ms: seq<MaterialInput>)
      modifies this
      ensures tables == AddMaterialRows(old(tables), tid, old(nextId), ms)
      ensures nextId == old(nextId) + |ms|
    {
      ghost var rows := MaterialRows(tid, nextId, ms);
      var i := 0;
      while i < |ms|
        invariant 0 <= i <= |ms| && nextId == old(nextId) + i
        invariant tables == old(tables).(materials := old(tables).materials + rows[..i])
      {
        var mat := ms[i];
        var measurementJson := MeasurementColumn(mat.measurement);
        var id := GenerateId();
        tables := tables.(materials := tables.materials
          + [MaterialRow(id, tid, mat.name, NullIfEmpty(mat.quantity), NullIfEmpty(mat.notes), measurementJson, i)]);
        assert rows[..i + 1] == rows[..i] + [rows[i]];
        i := i + 1;
      }
      assert rows[..i] == rows;
    }

    method InsertTools(tid: string, ts: seq<ToolInput>)
      modifies this
      ensures tables == AddToolRows(old(tables), tid, old(nextId), ts)
      ensures nextId == old(nextId) + |ts|
    {
      ghost var rows := ToolRows(tid, nextId, ts);
      var i := 0;
      while i < |ts|
        invariant 0 <= i <= |ts| && nextId == old(nextId) + i
        invariant tables == old(tables).(tools := old(tables).tools + rows[..i])
      {
        var tool := ts[i];
        var id := GenerateId();
        tables := tables.(tools := tables.tools
          + [ToolRow(id, tid, tool.name, NullIfEmpty(tool.notes), FlagColumn(tool.required), i)]);
        assert rows[..i + 1] == rows[..i] + [rows[i]];
        i := i + 1;
      }
      assert rows[..i] == rows;
    }

    method InsertSteps(tid: string, steps: seq<StepInput>)
      modifies this
      ensures tables == AddStepsRows(old(tables), tid, old(nextId), steps)
      ensures nextId == old(nextId) + StepsIdCount(steps)
    {
      var j := 0;
      while j < |steps|
        invariant 0 <= j <= |steps|
        invariant tables == AddStepsRows(old(tables), tid, old(nextId), steps[..j])
        invariant nextId == old(nextId) + StepsIdCount(steps[..j])
      {
        InsertStep(tid, steps[j]);
        assert steps[..j + 1][..j] == steps[..j];
        j := j + 1;
      }
      assert steps[..j] == steps;
    }

    /** One pass of the step loop: the step row, then its images, skill references and warnings. */
    method InsertStep(tid: string, step: StepInput)
      modifies this
      ensures tables == AddStepRows(old(tables), tid, old(nextId), step)
      ensures nextId == old(nextId) + StepIdCount(step)
    {
      var stepId := GenerateId();
      var measurementsJson := ListColumn(step.measurements, EncodeMeasurement);
      tables := tables.(steps := tables.steps
        + [StepRow(stepId, tid, step.stepNumber, step.title, step.instructions, NullIfEmpty(step.tips), measurementsJson)]);
      InsertImages(stepId, step.imageUrls);
      InsertSkills(stepId, step.skills);
      InsertWarnings(stepId, step.warnings);
    }

    method InsertImages(stepId: string, urls: seq<string>)
      modifies this
      ensures tables == old(tables).(stepImages := old(tables).stepImages + ImageRows(stepId, old(nextId), urls))
      ensures nextId == old(nextId) + |urls|
    {
      ghost var rows := ImageRows(stepId, nextId, urls);
      var i := 0;
      while i < |urls|
        invariant 0 <= i <= |urls| && nextId == old(nextId) + i
        invariant tables == old(tables).(stepImages := old(tables).stepImages + rows[..i])
      {
        var id := GenerateId();
        tables := tables.(stepImages := tables.stepImages + [StepImageRow(id, stepId, urls[i], i)]);
        assert rows[..i + 1] == rows[..i] + [rows[i]];
        i := i + 1;
      }
      assert rows[..i] == rows;
    }

    method InsertSkills(stepId: string, ks: seq<SkillInput>)
      modifies this
      ensures tables == old(tables).(skills := old(tables).skills + SkillRows(stepId, old(nextId), ks))
      ensures nextId == old(nextId) + |ks|
    {
      ghost var rows := SkillRows(stepId, nextId, ks);
      var i := 0;
      while i < |ks|
        invariant 0 <= i <= |ks| && nextId == old(nextId) + i
        invariant tables == old(tables).(skills := old(tables).skills + rows[..i])
      {
        var skill := ks[i];
        var id := GenerateId();
        tables := tables.(skills := tables.skills
          + [SkillRow(id, stepId, skill.skillName, skill.difficulty, skill.description, skill.searchQuery, i)]);
        assert rows[..i + 1] == rows[..i] + [rows[i]];
        i := i + 1;
      }
      assert rows[..i] == rows;
    }

    method InsertWarnings(stepId: string, ws: seq<WarningInput>)
      modifies this
      ensures tables == old(tables).(warnings := old(tables).warnings + WarningRows(stepId, old(nextId), ws))
      ensures nextId == old(nextId) + |ws|
    {
      ghost var rows := WarningRows(stepId, nextId, ws);
      var i := 0;
      while i < |ws|
        invariant 0 <= i <= |ws| && nextId == old(nextId) + i
        invariant tables == old(tables).(warnings := old(tables).warnings + rows[..i])
      {
        var warning := ws[i];
        var ppeJson := ListColumn(warning.ppeRequired, Quote);
        var id := GenerateId();
        var row := WarningRow(id, stepId, warning.warning, warning.severity, ppeJson, i);
        assert row == rows[i];
        tables := tables.(warnings := tables.warnings + [row]);
        assert rows[..i + 1] == rows[..i] + [rows[i]];
        i := i + 1;
      }
      assert rows[..i] == rows;
    }

    /** `deleteTutorial`. */
    method DeleteTutorial(id: string)
      requires Valid()
      modifies this
      ensures Valid()
      ensures tables == DeleteTutorialRows(old(tables), id) && nextId == old(nextId)
    {
      var stepIds := StepIdsOf(tables, id);
      DeleteStepChildrenNone(tables);
      var i := 0;
      while i < |stepIds|
        invariant 0 <= i <= |stepIds| && nextId == old(nextId)
        invariant tables == DeleteStepChildren(old(tables), stepIds[..i])
      {
        var sid := stepIds[i];
        tables := tables.(stepImages := Where(tables.stepImages, ImageNotOf(sid)));
        tables := tables.(skills := Where(tables.skills, SkillNotOf(sid)));
        tables := tables.(warnings := Where(tables.warnings, WarningNotOf(sid)));
        DeleteStepChildrenNext(old(tables), stepIds, i);
        i := i + 1;
      }
      assert stepIds[..i] == stepIds;
      tables := tables.(glossary := Where(tables.glossary, GlossaryNotIn(id)));
      tables := tables.(tools := Where(tables.tools, ToolNotIn(id)));
      tables := tables.(tutorials := Where(tables.tutorials, TutorialIsNot(id)),
                        materials := Where(tables.materials, MaterialNotIn(id)),
                        steps := Where(tables.steps, StepNotIn(id)));
      DeleteKeepsValid(old(tables), old(nextId), id);
    }

    /** `getChecklist`. */
    method GetChecklist() returns (items: seq<ChecklistItem>)
      ensures items == ChecklistView(tables)
    {
      var rows := NewestFirst(tables.checklist);
      items := seq(|rows|, i requires 0 <= i < |rows| => DecodeChecklist(rows[i]));
    }

    /** `addToChecklist`. */
    method AddToChecklist(item: ChecklistInput) returns (id: string)
      requires Valid()
      modifies this
      ensures Valid()
      ensures id == IdText(old(nextId)) && nextId == old(nextId) + 1
      ensures tables == old(tables).(checklist := old(tables).checklist + [ChecklistRowOf(id, item)])
    {
      id := GenerateId();
      tables := tables.(checklist := tables.checklist
        + [ChecklistRow(id, item.name, NullIfEmpty(item.quantity), NullIfEmpty(item.notes), 0,
                        NullIfEmpty(item.tutorialId), Some(item.itemType.Name()))]);
      AddToChecklistKeepsValid(old(tables), old(nextId), item);
    }

    /** `toggleChecklistItem`. */
    method ToggleChecklistItem(id: string)
      requires Valid()
      modifies this
      ensures Valid()
      ensures tables == old(tables).(checklist := ToggleRows(old(tables).checklist, id))
      ensures nextId == old(nextId)
    {
      tables := tables.(checklist := ToggleRows(tables.checklist, id));
      ToggleKeepsValid(old(tables), nextId, id);
    }

    /** `removeChecklistItem`. */
    method RemoveChecklistItem(id: string)
      requires Valid()
      modifies this
      ensures Valid()
      ensures tables == old(tables).(checklist := Where(old(tables).checklist, ChecklistIsNot(id)))
      ensures nextId == old(nextId)
    {
      tables := tables.(checklist := Where(tables.checklist, ChecklistIsNot(id)));
      RemoveKeepsValid(old(tables), nextId, id);
    }

    /** `clearChecklist`. */
    method ClearChecklist()
      requires Valid()
      modifies this
      ensures Valid()
      ensures tables == old(tables).(checklist := []) && nextId == old(nextId)
    {
      tables := tables.(checklist := []);
    }

    /** `addTutorialToChecklist`: every material of the tutorial, then every required tool. */
    method AddTutorialToChecklist(tid: string)
      requires Valid()
      modifies this
      ensures Valid()
      ensures tables == old(tables).(checklist := old(tables).checklist
                                       + ItemRows(old(nextId), TutorialEntries(old(tables), tid)))
      ensures nextId == old(nextId) + |TutorialEntries(old(tables), tid)|
    {
      ghost var t0, n0 := tables, nextId;
      var materials := Where(tables.materials, MaterialIn(tid));
      var entries := MaterialEntries(tid, materials);
      AddEntries(entries);
      ghost var n1 := nextId;
      var tools := Where(tables.tools, RequiredToolIn(tid));
      var more := ToolEntries(tid, tools);
      AddEntries(more);
      CopyToChecklistPlan(t0, n0, n1, tid);
    }

    /** One `addToChecklist` per entry, in order. */
    method AddEntries(entries: seq<ChecklistInput>)
      requires Valid()
      modifies this
      ensures Valid()
      ensures tables == old(tables).(checklist := old(tables).checklist + ItemRows(old(nextId), entries))
      ensures nextId == old(nextId) + |entries|
    {
      var i := 0;
      while i < |entries|
        invariant 0 <= i <= |entries| && nextId == old(nextId) + i && Valid()
        invariant tables == old(tables).(checklist := old(tables).checklist + ItemRows(old(nextId), entries[..i]))
      {
        var _ := AddToChecklist(entries[i]);
        assert entries[..i + 1][..i] == entries[..i];
        i := i + 1;
      }
      assert entries[..i] == entries;
    }
  }
}
