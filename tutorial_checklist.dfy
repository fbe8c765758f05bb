/**
 * The materials-and-tools checklist as `getChecklist` shows it after each checklist write: a new
 * item comes first and unchecked, a toggle flips exactly the items with the id (twice restores
 * them), a remove drops exactly those items, and adding a tutorial copies its materials and its
 * required tools.
 */
module TutorialChecklist {
  import opened Wrappers
  import opened Table
  import opened TutorialRows
  import opened TutorialPlan

  /** Every stored `checked` flag is 0 or 1, as the app's own writes leave it. */
  predicate FlagsValid(rows: seq<ChecklistRow>) {
    forall r :: r in rows ==> r.checked == 0 || r.checked == 1
  }

  /** `|| null` applied twice is applied once. */
  lemma NullIfEmptyTwice(v: Option<string>)
    ensures NullIfEmpty(NullIfEmpty(v)) == NullIfEmpty(v)
  {
  }

  /** The item `addToChecklist` stores reads back unchecked, with its own kind and empty fields as null. */
  lemma AddedItemFirst(t: Tables, id: string, item: ChecklistInput)
    ensures var before := ChecklistView(t);
            var after := ChecklistView(t.(checklist := t.checklist + [ChecklistRowOf(id, item)]));
            && |after| == |before| + 1
            && after[0] == ChecklistItem(id, item.name, NullIfEmpty(item.quantity), NullIfEmpty(item.notes),
                                         false, NullIfEmpty(item.tutorialId), item.itemType.Name())
            && after[1..] == before
  {
    var before := ChecklistView(t);
    var after := ChecklistView(t.(checklist := t.checklist + [ChecklistRowOf(id, item)]));
    assert after[1..] == before by {
      forall i | 0 <= i < |before| ensures after[1..][i] == before[i] {
        assert after[1 + i] == DecodeChecklist(t.checklist[|t.checklist| - 1 - i]);
      }
    }
  }

  /**
   * `toggleChecklistItem`: every item with the id changes its `checked`, and nothing else changes;
   * with a flag other than 0 or 1 `NOT` would not flip what `checked === 1` shows.
   */
  lemma ToggleFlips(t: Tables, id: string)
    requires FlagsValid(t.checklist)
    ensures var before := ChecklistView(t);
            var after := ChecklistView(t.(checklist := ToggleRows(t.checklist, id)));
            && |after| == |before|
            && forall i :: 0 <= i < |before| ==>
                 after[i] == if before[i].id == id then before[i].(checked := !before[i].checked) else before[i]
  {
    var rows := t.checklist;
    forall i | 0 <= i < |rows| ensures rows[i].checked == 0 || rows[i].checked == 1 {
      assert rows[i] in rows;
    }
  }

  /** Toggling the same id twice restores the checklist. */
  lemma ToggleTwice(rows: seq<ChecklistRow>, id: string)
    requires FlagsValid(rows)
    ensures ToggleRows(ToggleRows(rows, id), id) == rows
  {
    var once := ToggleRows(rows, id);
    forall i | 0 <= i < |rows| ensures ToggleRows(once, id)[i] == rows[i] {
      assert rows[i] in rows;
    }
  }

  /** `getChecklist` shows exactly the decoded stored rows. */
  lemma ViewMembers(t: Tables)
    ensures forall item :: item in ChecklistView(t) <==> exists r :: r in t.checklist && DecodeChecklist(r) == item
  {
    var rows := t.checklist;
    var view := ChecklistView(t);
    forall item | item in view ensures exists r :: r in rows && DecodeChecklist(r) == item {
      var i :| 0 <= i < |view| && view[i] == item;
      assert rows[|rows| - 1 - i] in rows;
    }
    forall r | r in rows ensures DecodeChecklist(r) in view {
      var k :| 0 <= k < |rows| && rows[k] == r;
      assert view[|rows| - 1 - k] == DecodeChecklist(r);
    }
  }

  /** `removeChecklistItem`: the items left are exactly those with another id. */
  lemma RemoveDropsId(t: Tables, id: string)
    ensures var before := ChecklistView(t);
            var after := ChecklistView(t.(checklist := Where(t.checklist, ChecklistIsNot(id))));
            forall item :: item in after <==> item in before && item.id != id
  {
    ViewMembers(t);
    ViewMembers(t.(checklist := Where(t.checklist, ChecklistIsNot(id))));
  }

  /** The i-th row of a run of `addToChecklist` calls takes the i-th id. */
  lemma {:induction false} ItemRowsAt(base: nat, items: seq<ChecklistInput>, i: nat)
    requires i < |items|
    ensures ItemRows(base, items)[i] == ChecklistRowOf(IdText(base + i), items[i])
    decreases |items|
  {
    var init := items[..|items| - 1];
    if i < |init| {
      ItemRowsAt(base, init, i);
    }
  }

  /** The row stored for a material of tutorial `tid`. */
  lemma MaterialItemRow(id: string, tid: string, m: MaterialRow)
    ensures ChecklistRowOf(id, MaterialEntry(tid, m))
              == ChecklistRow(id, m.name, NullIfEmpty(m.quantity), NullIfEmpty(m.notes), 0, NullIfEmpty(Some(tid)), Some("material"))
  {
    NullIfEmptyTwice(m.quantity);
    NullIfEmptyTwice(m.notes);
  }

  /** The row stored for a required tool of tutorial `tid`. */
  lemma ToolItemRow(id: string, tid: string, r: ToolRow)
    ensures ChecklistRowOf(id, ToolEntry(tid, r))
              == ChecklistRow(id, r.name, None, NullIfEmpty(r.notes), 0, NullIfEmpty(Some(tid)), Some("tool"))
  {
    NullIfEmptyTwice(r.notes);
  }

  /** `addTutorialToChecklist` copies every material of the tutorial and every tool of it with `required = 1`. */
  lemma ChecklistSelection(t: Tables, tid: string)
    ensures forall m :: m in ChecklistMaterials(t, tid) <==> m in t.materials && m.tutorialId == tid
    ensures forall r :: r in ChecklistTools(t, tid) <==> r in t.tools && r.tutorialId == tid && r.required == 1
  {
  }

  /**
   * `addTutorialToChecklist`: one unchecked row per material of the tutorial, in table order, with
   * the tutorial id and kind "material"; ids continue from the counter.
   */
  lemma TutorialMaterialItems(t: Tables, n: nat, tid: string)
    ensures var ms := ChecklistMaterials(t, tid);
            var rows := ItemRows(n, TutorialEntries(t, tid));
            && |rows| == |ms| + |ChecklistTools(t, tid)|
            && forall i :: 0 <= i < |ms| ==>
                 rows[i] == ChecklistRow(IdText(n + i), ms[i].name, NullIfEmpty(ms[i].quantity),
                                         NullIfEmpty(ms[i].notes), 0, NullIfEmpty(Some(tid)), Some("material"))
  {
    var ms := ChecklistMaterials(t, tid);
    var entries := TutorialEntries(t, tid);
    forall i | 0 <= i < |ms|
      ensures ItemRows(n, entries)[i] == ChecklistRow(IdText(n + i), ms[i].name, NullIfEmpty(ms[i].quantity),
                                                      NullIfEmpty(ms[i].notes), 0, NullIfEmpty(Some(tid)), Some("material"))
    {
      ItemRowsAt(n, entries, i);
      assert entries[i] == MaterialEntry(tid, ms[i]);
      MaterialItemRow(IdText(n + i), tid, ms[i]);
    }
  }

  /**
   * `addTutorialToChecklist`: after the materials, one unchecked row per required tool of the
   * tutorial, in table order, with no quantity and kind "tool".
   */
  lemma TutorialToolItems(t: Tables, n: nat, tid: string)
    ensures var k := |ChecklistMaterials(t, tid)|;
            var ts := ChecklistTools(t, tid);
            var rows := ItemRows(n, TutorialEntries(t, tid));
            forall i :: 0 <= i < |ts| ==>
              rows[k + i] == ChecklistRow(IdText(n + k + i), ts[i].name, None, NullIfEmpty(ts[i].notes), 0,
                                          NullIfEmpty(Some(tid)), Some("tool"))
  {
    var k := |ChecklistMaterials(t, tid)|;
    var ts := ChecklistTools(t, tid);
    forall i | 0 <= i < |ts|
      ensures ItemRows(n, TutorialEntries(t, tid))[k + i]
              == ChecklistRow(IdText(n + k + i), ts[i].name, None, NullIfEmpty(ts[i].notes), 0,
                              NullIfEmpty(Some(tid)), Some("tool"))
    {
      ToolItemAt(t, n, tid, i);
    }
  }

  /** The row copied from the `i`-th required tool sits right after the material rows. */
  lemma ToolItemAt(t: Tables, n: nat, tid: string, i: nat)
    requires i < |ChecklistTools(t, tid)|
    ensures var k := |ChecklistMaterials(t, tid)|;
            var r := ChecklistTools(t, tid)[i];
            ItemRows(n, TutorialEntries(t, tid))[k + i]
              == ChecklistRow(IdText(n + k + i), r.name, None, NullIfEmpty(r.notes), 0, NullIfEmpty(Some(tid)), Some("tool"))
  {
    var k := |ChecklistMaterials(t, tid)|;
    var entries := TutorialEntries(t, tid);
    var j := k + i;
    ItemRowsAt(n, entries, j);
    assert entries[j] == ToolEntry(tid, ChecklistTools(t, tid)[i]);
    ToolItemRow(IdText(n + j), tid, ChecklistTools(t, tid)[i]);
  }
}
