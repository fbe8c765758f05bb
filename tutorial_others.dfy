/**
 * `addTutorial` and `deleteTutorial` touch one tutorial only: what `getTutorialById` returns for
 * any other tutorial is the same before and after.
 */
module TutorialIsolation {
  import opened Wrappers
  import opened Table
  import opened TutorialRows
  import opened TutorialPlan
  import opened TutorialBatches
  import opened TutorialValidity
  import opened TutorialReadBack

  /** `getTutorialById` reads nothing but the tutorial row, its lists, and its steps with their children. */
  lemma TutorialDetailsAgree(a: Tables, b: Tables, id: string)
    requires FirstWhere(a.tutorials, TutorialIs(id)) == FirstWhere(b.tutorials, TutorialIs(id))
    requires GlossaryOf(a, id) == GlossaryOf(b, id) && MaterialsOf(a, id) == MaterialsOf(b, id)
    requires ToolsOf(a, id) == ToolsOf(b, id)
    requires DecodeEach(StepsOf(a, id), StepDecoder(a)) == DecodeEach(StepsOf(b, id), StepDecoder(b))
    ensures TutorialDetails(a, id) == TutorialDetails(b, id)
  {
  }

  /** Steps whose images, skills and warnings read alike in two databases decode alike. */
  lemma StepsAgree(a: Tables, b: Tables, rows: seq<StepRow>)
    requires forall s :: s in rows ==> ImagesOf(a, s.id) == ImagesOf(b, s.id)
    requires forall s :: s in rows ==> SkillsOf(a, s.id) == SkillsOf(b, s.id)
    requires forall s :: s in rows ==> WarningsOf(a, s.id) == WarningsOf(b, s.id)
    ensures DecodeEach(rows, StepDecoder(a)) == DecodeEach(rows, StepDecoder(b))
  {
    forall i | 0 <= i < |rows| ensures StepDecoder(a)(rows[i]) == StepDecoder(b)(rows[i]) {
      assert rows[i] in rows;
    }
    DecodeEachSame(rows, StepDecoder(a), StepDecoder(b));
  }

  /** A step read back for a tutorial is one of its stored steps. */
  lemma StepOfTutorial(t: Tables, tid: string, s: StepRow)
    requires s in StepsOf(t, tid)
    ensures s in t.steps && s.tutorialId == tid
  {
    SortByOrders(Where(t.steps, StepIn(tid)), StepOrder);
    assert s in multiset(StepsOf(t, tid));
  }

  // ---- deleteTutorial ----

  /** The other tutorial's row and lists: the deletes only remove rows of the deleted id. */
  lemma DeleteKeepsOtherLists(t: Tables, id: string, other: string)
    requires other != id
    ensures var d := DeleteTutorialRows(t, id);
            && FirstWhere(d.tutorials, TutorialIs(other)) == FirstWhere(t.tutorials, TutorialIs(other))
            && GlossaryOf(d, other) == GlossaryOf(t, other) && MaterialsOf(d, other) == MaterialsOf(t, other)
            && ToolsOf(d, other) == ToolsOf(t, other) && StepsOf(d, other) == StepsOf(t, other)
  {
    FirstWhereWhere(t.tutorials, TutorialIsNot(id), TutorialIs(other));
    WhereWhere(t.glossary, GlossaryNotIn(id), GlossaryIn(other), GlossaryIn(other));
    WhereWhere(t.materials, MaterialNotIn(id), MaterialIn(other), MaterialIn(other));
    WhereWhere(t.tools, ToolNotIn(id), ToolIn(other), ToolIn(other));
    WhereWhere(t.steps, StepNotIn(id), StepIn(other), StepIn(other));
  }

  /** The children of a step that is not one of the deleted tutorial's steps stay. */
  lemma DeleteKeepsOtherChildren(t: Tables, id: string, sid: string)
    requires sid !in StepIdsOf(t, id)
    ensures var d := DeleteTutorialRows(t, id);
            && ImagesOf(d, sid) == ImagesOf(t, sid) && SkillsOf(d, sid) == SkillsOf(t, sid)
            && WarningsOf(d, sid) == WarningsOf(t, sid)
  {
    var sids := StepIdsOf(t, id);
    WhereWhere(t.stepImages, ImageNotUnder(sids), ImageIn(sid), ImageIn(sid));
    WhereWhere(t.skills, SkillNotUnder(sids), SkillIn(sid), SkillIn(sid));
    WhereWhere(t.warnings, WarningNotUnder(sids), WarningIn(sid), WarningIn(sid));
  }

  /**
   * Deleting one tutorial leaves what every other tutorial reads back as, provided no step of the
   * other tutorial shares its id with a step of the deleted one (the ids are generated, so none do).
   */
  lemma DeleteKeepsOthers(t: Tables, id: string, other: string)
    requires other != id
    requires forall s1, s2 :: s1 in t.steps && s2 in t.steps && s1.tutorialId == id && s2.tutorialId == other
                              ==> s1.id != s2.id
    ensures TutorialDetails(DeleteTutorialRows(t, id), other) == TutorialDetails(t, other)
  {
    var d := DeleteTutorialRows(t, id);
    var rows := StepsOf(t, other);
    DeleteKeepsOtherLists(t, id, other);
    forall s | s in rows
      ensures ImagesOf(d, s.id) == ImagesOf(t, s.id) && SkillsOf(d, s.id) == SkillsOf(t, s.id)
      ensures WarningsOf(d, s.id) == WarningsOf(t, s.id)
    {
      StepOfTutorial(t, other, s);
      DeleteKeepsOtherChildren(t, id, s.id);
    }
    StepsAgree(d, t, rows);
    TutorialDetailsAgree(d, t, other);
  }

  // ---- addTutorial ----

  /** The other tutorial's row: the one row added carries the new id. */
  lemma AddKeepsOtherRow(t: Tables, n: nat, x: TutorialInput, gs: seq<GlossaryInput>, ms: seq<MaterialInput>,
                         ts: seq<ToolInput>, steps: seq<StepInput>, other: string)
    requires other != IdText(n)
    ensures FirstWhere(AddTutorialRows(t, n, x, gs, ms, ts, steps).tutorials, TutorialIs(other))
              == FirstWhere(t.tutorials, TutorialIs(other))
  {
    AddedTables(t, n, x, gs, ms, ts, steps);
    FirstWhereBefore(t.tutorials, [TutorialRowOf(IdText(n), x)], TutorialIs(other));
  }

  /** The other tutorial's glossary: every glossary row added carries the new id. */
  lemma AddKeepsOtherGlossary(t: Tables, n: nat, x: TutorialInput, gs: seq<GlossaryInput>, ms: seq<MaterialInput>,
                              ts: seq<ToolInput>, steps: seq<StepInput>, other: string)
    requires other != IdText(n)
    ensures GlossaryOf(AddTutorialRows(t, n, x, gs, ms, ts, steps), other) == GlossaryOf(t, other)
  {
    AddedTables(t, n, x, gs, ms, ts, steps);
    WhereAppendNone(t.glossary, GlossaryRows(IdText(n), n + 1, gs), GlossaryIn(other));
  }

  lemma AddKeepsOtherMaterials(t: Tables, n: nat, x: TutorialInput, gs: seq<GlossaryInput>, ms: seq<MaterialInput>,
                               ts: seq<ToolInput>, steps: seq<StepInput>, other: string)
    requires other != IdText(n)
    ensures MaterialsOf(AddTutorialRows(t, n, x, gs, ms, ts, steps), other) == MaterialsOf(t, other)
  {
    AddedTables(t, n, x, gs, ms, ts, steps);
    WhereAppendNone(t.materials, MaterialRows(IdText(n), n + 1 + |gs|, ms), MaterialIn(other));
  }

  lemma AddKeepsOtherTools(t: Tables, n: nat, x: TutorialInput, gs: seq<GlossaryInput>, ms: seq<MaterialInput>,
                           ts: seq<ToolInput>, steps: seq<StepInput>, other: string)
    requires other != IdText(n)
    ensures ToolsOf(AddTutorialRows(t, n, x, gs, ms, ts, steps), other) == ToolsOf(t, other)
  {
    AddedTables(t, n, x, gs, ms, ts, steps);
    WhereAppendNone(t.tools, ToolRows(IdText(n), n + 1 + |gs| + |ms|, ts), ToolIn(other));
  }

  lemma AddKeepsOtherSteps(t: Tables, n: nat, x: TutorialInput, gs: seq<GlossaryInput>, ms: seq<MaterialInput>,
                           ts: seq<ToolInput>, steps: seq<StepInput>, other: string)
    requires other != IdText(n)
    ensures StepsOf(AddTutorialRows(t, n, x, gs, ms, ts, steps), other) == StepsOf(t, other)
  {
    var tid := IdText(n);
    var sb := StepsBase(n, gs, ms, ts);
    var added := StepRowsFrom(tid, sb, steps);
    AddedTables(t, n, x, gs, ms, ts, steps);
    forall r | r in added ensures !StepIn(other)(r) {
      var j :| 0 <= j < |added| && added[j] == r;
      StepRowAt(tid, sb, steps, j);
    }
    WhereAppendNone(t.steps, added, StepIn(other));
  }

  /** The images of a step stored before the add: every image added hangs under a newer id. */
  lemma AddKeepsOldImages(t: Tables, n: nat, x: TutorialInput, gs: seq<GlossaryInput>, ms: seq<MaterialInput>,
                          ts: seq<ToolInput>, steps: seq<StepInput>, sid: string)
    requires Issued(sid, n)
    ensures ImagesOf(AddTutorialRows(t, n, x, gs, ms, ts, steps), sid) == ImagesOf(t, sid)
  {
    var sb := StepsBase(n, gs, ms, ts);
    var added := ChildRowsFrom(sb, steps, ImageBatch);
    AddedTables(t, n, x, gs, ms, ts, steps);
    assert forall r :: r in added ==> !ImageIn(sid)(r) by {
      ImageBatchIds();
      ChildRowsKeys(sb, steps, ImageBatch, (r: StepImageRow) => r.stepId);
    }
    WhereAppendNone(t.stepImages, added, ImageIn(sid));
  }

  lemma AddKeepsOldSkills(t: Tables, n: nat, x: TutorialInput, gs: seq<GlossaryInput>, ms: seq<MaterialInput>,
                          ts: seq<ToolInput>, steps: seq<StepInput>, sid: string)
    requires Issued(sid, n)
    ensures SkillsOf(AddTutorialRows(t, n, x, gs, ms, ts, steps), sid) == SkillsOf(t, sid)
  {
    var sb := StepsBase(n, gs, ms, ts);
    var added := ChildRowsFrom(sb, steps, SkillBatch);
    AddedTables(t, n, x, gs, ms, ts, steps);
    assert forall r :: r in added ==> !SkillIn(sid)(r) by {
      SkillBatchIds();
      ChildRowsKeys(sb, steps, SkillBatch, (r: SkillRow) => r.stepId);
    }
    WhereAppendNone(t.skills, added, SkillIn(sid));
  }

  lemma AddKeepsOldWarnings(t: Tables, n: nat, x: TutorialInput, gs: seq<GlossaryInput>, ms: seq<MaterialInput>,
                            ts: seq<ToolInput>, steps: seq<StepInput>, sid: string)
    requires Issued(sid, n)
    ensures WarningsOf(AddTutorialRows(t, n, x, gs, ms, ts, steps), sid) == WarningsOf(t, sid)
  {
    var sb := StepsBase(n, gs, ms, ts);
    var added := ChildRowsFrom(sb, steps, WarningBatch);
    AddedTables(t, n, x, gs, ms, ts, steps);
    assert forall r :: r in added ==> !WarningIn(sid)(r) by {
      WarningBatchIds();
      ChildRowsKeys(sb, steps, WarningBatch, (r: WarningRow) => r.stepId);
    }
    WhereAppendNone(t.warnings, added, WarningIn(sid));
  }

  /** Adding a tutorial leaves what every other tutorial reads back as. */
  lemma AddKeepsOthers(t: Tables, n: nat, x: TutorialInput, gs: seq<GlossaryInput>, ms: seq<MaterialInput>,
                       ts: seq<ToolInput>, steps: seq<StepInput>, other: string)
    requires TablesValid(t, n) && other != IdText(n)
    ensures TutorialDetails(AddTutorialRows(t, n, x, gs, ms, ts, steps), other) == TutorialDetails(t, other)
  {
    var a := AddTutorialRows(t, n, x, gs, ms, ts, steps);
    var rows := StepsOf(t, other);
    AddKeepsOtherRow(t, n, x, gs, ms, ts, steps, other);
    AddKeepsOtherGlossary(t, n, x, gs, ms, ts, steps, other);
    AddKeepsOtherMaterials(t, n, x, gs, ms, ts, steps, other);
    AddKeepsOtherTools(t, n, x, gs, ms, ts, steps, other);
    AddKeepsOtherSteps(t, n, x, gs, ms, ts, steps, other);
    forall s | s in rows
      ensures ImagesOf(a, s.id) == ImagesOf(t, s.id) && SkillsOf(a, s.id) == SkillsOf(t, s.id)
      ensures WarningsOf(a, s.id) == WarningsOf(t, s.id)
    {
      StepOfTutorial(t, other, s);
      AddKeepsOldImages(t, n, x, gs, ms, ts, steps, s.id);
      AddKeepsOldSkills(t, n, x, gs, ms, ts, steps, s.id);
      AddKeepsOldWarnings(t, n, x, gs, ms, ts, steps, s.id);
    }
    StepsAgree(a, t, rows);
    TutorialDetailsAgree(a, t, other);
  }
}
