/**
 * What `deleteTutorial` leaves behind: the tutorial no longer reads back, and no row of it or of
 * its steps' children remains; the checklist, which only copies from tutorials, is untouched.
 */
module TutorialDeletion {
  import opened Wrappers
  import opened Table
  import opened TutorialRows
  import opened TutorialPlan

  /** `getTutorialById` after `deleteTutorial` of the same id finds nothing. */
  lemma DeleteThenRead(t: Tables, id: string)
    ensures TutorialDetails(DeleteTutorialRows(t, id), id) == Ok(None)
  {
    var d := DeleteTutorialRows(t, id);
    assert forall r :: r in d.tutorials ==> !TutorialIs(id)(r);
  }

  /** No row of the tutorial's own lists remains, and the checklist, which only copies from them, stays. */
  lemma DeleteRemovesOwnRows(t: Tables, id: string)
    ensures var d := DeleteTutorialRows(t, id);
            && (forall r :: r in d.tutorials ==> r.id != id)
            && (forall r :: r in d.glossary ==> r.tutorialId != id)
            && (forall r :: r in d.materials ==> r.tutorialId != id)
            && (forall r :: r in d.tools ==> r.tutorialId != id)
            && (forall r :: r in d.steps ==> r.tutorialId != id)
            && d.checklist == t.checklist
  {
    var d := DeleteTutorialRows(t, id);
    assert forall r :: r in d.tutorials ==> TutorialIsNot(id)(r);
    assert forall r :: r in d.glossary ==> GlossaryNotIn(id)(r);
    assert forall r :: r in d.materials ==> MaterialNotIn(id)(r);
    assert forall r :: r in d.tools ==> ToolNotIn(id)(r);
    assert forall r :: r in d.steps ==> StepNotIn(id)(r);
  }

  /** No image, skill or warning remains under any step the tutorial had. */
  lemma DeleteRemovesStepChildren(t: Tables, id: string, s: StepRow)
    requires s in t.steps && s.tutorialId == id
    ensures var d := DeleteTutorialRows(t, id);
            && (forall r :: r in d.stepImages ==> r.stepId != s.id)
            && (forall r :: r in d.skills ==> r.stepId != s.id)
            && (forall r :: r in d.warnings ==> r.stepId != s.id)
  {
    var d := DeleteTutorialRows(t, id);
    var sids := StepIdsOf(t, id);
    assert s.id in sids;
    assert forall r :: r in d.stepImages ==> ImageNotUnder(sids)(r);
    assert forall r :: r in d.skills ==> SkillNotUnder(sids)(r);
    assert forall r :: r in d.warnings ==> WarningNotUnder(sids)(r);
  }
}
