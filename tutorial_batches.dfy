/**
 * Facts about the rows `addTutorial` writes for its steps: which ids each step's batch draws from
 * the counter, and that selecting one step's children by its id finds exactly that step's batch.
 */
module TutorialBatches {
  import opened Wrappers
  import opened Table
  import opened TutorialRows
  import opened TutorialPlan

  /** The counter value at which step `j` of `steps` takes its id. */
  function StepBase(base: nat, steps: seq<StepInput>, j: nat): nat
    requires j <= |steps|
  {
    base + StepsIdCount(steps[..j])
  }

  /** The ids of the steps before `j`, and `j`'s own, fit in the ids of all the steps. */
  lemma {:induction false} StepsIdCountPrefix(steps: seq<StepInput>, j: nat)
    requires j < |steps|
    ensures StepsIdCount(steps[..j]) + StepIdCount(steps[j]) <= StepsIdCount(steps)
    decreases |steps|
  {
    var init := steps[..|steps| - 1];
    if j == |steps| - 1 {
      assert init == steps[..j];
    } else {
      assert init[..j] == steps[..j] && init[j] == steps[j];
      StepsIdCountPrefix(init, j);
    }
  }

  /** `id` is one of the ids handed out between `lo` (included) and `hi` (excluded). */
  predicate IdBetween(id: string, lo: nat, hi: nat) {
    Issued(id, hi) && !Issued(id, lo)
  }

  /** Every batch row's key lies in its step's id range, so every row's key lies in the whole range. */
  lemma {:induction false} ChildRowsKeys<T(!new)>(base: nat, steps: seq<StepInput>,
                                                 batch: (nat, StepInput) -> seq<T>, key: T -> string)
    requires forall b: nat, s: StepInput, x :: x in batch(b, s) ==> IdBetween(key(x), b, b + StepIdCount(s))
    ensures forall x :: x in ChildRowsFrom(base, steps, batch) ==> IdBetween(key(x), base, base + StepsIdCount(steps))
    decreases |steps|
  {
    if steps != [] {
      var init := steps[..|steps| - 1];
      ChildRowsKeys(base, init, batch, key);
    }
  }

  /** A property every batch row has, every row has. */
  lemma {:induction false} ChildRowsAll<T(!new)>(base: nat, steps: seq<StepInput>,
                                                batch: (nat, StepInput) -> seq<T>, ok: T -> bool)
    requires forall b: nat, s: StepInput, x :: x in batch(b, s) ==> ok(x)
    ensures forall x :: x in ChildRowsFrom(base, steps, batch) ==> ok(x)
    decreases |steps|
  {
    if steps != [] {
      ChildRowsAll(base, steps[..|steps| - 1], batch, ok);
    }
  }

  /** The n-th id lies between n and n+1. */
  lemma IdTextBetween(n: nat, lo: nat, hi: nat)
    ensures IdBetween(IdText(n), lo, hi) <==> lo <= n < hi
  {
    IdTextIssued(n, lo);
    IdTextIssued(n, hi);
  }

  /** No batch of `steps` hangs under an id handed out after all of them. */
  lemma ChildRowsNoneAfter<T(!new)>(base: nat, steps: seq<StepInput>,
      batch: (nat, StepInput) -> seq<T>, parent: T -> string, sel: T -> bool, m: nat)
    requires forall b: nat, s: StepInput, x :: x in batch(b, s) ==> parent(x) == IdText(b)
    requires forall x :: sel(x) ==> parent(x) == IdText(m)
    requires base + StepsIdCount(steps) <= m
    ensures Where(ChildRowsFrom(base, steps, batch), sel) == []
  {
    forall b: nat, s: StepInput, x | x in batch(b, s)
      ensures IdBetween(parent(x), b, b + StepIdCount(s))
    {
      IdTextBetween(b, b, b + StepIdCount(s));
    }
    ChildRowsKeys(base, steps, batch, parent);
    IdTextBetween(m, base, base + StepsIdCount(steps));
    WhereNone(ChildRowsFrom(base, steps, batch), sel);
  }

  /** The last step's children: no earlier batch hangs under its id. */
  lemma ChildRowsOfLastStep<T(!new)>(base: nat, steps: seq<StepInput>,
      batch: (nat, StepInput) -> seq<T>, parent: T -> string, sel: T -> bool)
    requires |steps| > 0
    requires forall b: nat, s: StepInput, x :: x in batch(b, s) ==> parent(x) == IdText(b)
    requires forall x :: sel(x) == (parent(x) == IdText(StepBase(base, steps, |steps| - 1)))
    ensures Where(ChildRowsFrom(base, steps, batch), sel) == batch(StepBase(base, steps, |steps| - 1), steps[|steps| - 1])
  {
    var init := steps[..|steps| - 1];
    var bl := base + StepsIdCount(init);
    assert init == steps[..|steps| - 1];
    ChildRowsNoneAfter(base, init, batch, parent, sel, bl);
    WhereAll(batch(bl, steps[|steps| - 1]), sel);
    WhereAppend(ChildRowsFrom(base, init, batch), batch(bl, steps[|steps| - 1]), sel);
  }

  /** An earlier step's children: the last batch hangs under another id. */
  lemma ChildRowsOfEarlierStep<T(!new)>(base: nat, steps: seq<StepInput>,
      batch: (nat, StepInput) -> seq<T>, parent: T -> string, sel: T -> bool, j: nat)
    requires j < |steps| - 1
    requires forall b: nat, s: StepInput, x :: x in batch(b, s) ==> parent(x) == IdText(b)
    requires forall x :: sel(x) == (parent(x) == IdText(StepBase(base, steps, j)))
    ensures Where(ChildRowsFrom(base, steps, batch), sel) == Where(ChildRowsFrom(base, steps[..|steps| - 1], batch), sel)
  {
    var init := steps[..|steps| - 1];
    var bl := base + StepsIdCount(init);
    StepsPrefix(base, steps, j);
    StepsIdCountPrefix(init, j);
    IdTextInjective(bl, StepBase(base, steps, j));
    WhereNone(batch(bl, steps[|steps| - 1]), sel);
    WhereAppend(ChildRowsFrom(base, init, batch), batch(bl, steps[|steps| - 1]), sel);
  }

  /**
   * Selecting the children whose parent is step `j`'s id finds step `j`'s batch and nothing else:
   * every other batch hangs under another id.
   */
  lemma {:induction false} ChildRowsOfStep<T(!new)>(base: nat, steps: seq<StepInput>,
      batch: (nat, StepInput) -> seq<T>, parent: T -> string, sel: T -> bool, j: nat)
    requires j < |steps|
    requires forall b: nat, s: StepInput, x :: x in batch(b, s) ==> parent(x) == IdText(b)
    requires forall x :: sel(x) == (parent(x) == IdText(StepBase(base, steps, j)))
    ensures Where(ChildRowsFrom(base, steps, batch), sel) == batch(StepBase(base, steps, j), steps[j])
    decreases |steps|
  {
    if j == |steps| - 1 {
      ChildRowsOfLastStep(base, steps, batch, parent, sel);
    } else {
      StepsPrefix(base, steps, j);
      ChildRowsOfEarlierStep(base, steps, batch, parent, sel, j);
      ChildRowsOfStep(base, steps[..|steps| - 1], batch, parent, sel, j);
    }
  }

  /** Dropping the last step changes neither the earlier steps nor where their ids start. */
  lemma StepsPrefix(base: nat, steps: seq<StepInput>, j: nat)
    requires j < |steps| - 1
    ensures var init := steps[..|steps| - 1]; init[j] == steps[j] && StepBase(base, init, j) == StepBase(base, steps, j)
  {
    assert steps[..|steps| - 1][..j] == steps[..j];
  }

  lemma StepRowLast(tid: string, base: nat, steps: seq<StepInput>)
    requires |steps| > 0
    ensures StepRowsFrom(tid, base, steps)[|steps| - 1]
         == StepRowOf(IdText(StepBase(base, steps, |steps| - 1)), tid, steps[|steps| - 1])
  {
    assert steps[..|steps| - 1] == steps[..|steps| - 1][..|steps| - 1];
  }

  lemma StepRowEarlier(tid: string, base: nat, steps: seq<StepInput>, j: nat)
    requires j < |steps| - 1
    ensures StepRowsFrom(tid, base, steps)[j] == StepRowsFrom(tid, base, steps[..|steps| - 1])[j]
  {
  }

  /** Step `j`'s row. */
  lemma {:induction false} StepRowAt(tid: string, base: nat, steps: seq<StepInput>, j: nat)
    requires j < |steps|
    ensures StepRowsFrom(tid, base, steps)[j] == StepRowOf(IdText(StepBase(base, steps, j)), tid, steps[j])
    decreases |steps|
  {
    if j == |steps| - 1 {
      StepRowLast(tid, base, steps);
    } else {
      StepRowAt(tid, base, steps[..|steps| - 1], j);
      StepRowEarlier(tid, base, steps, j);
      StepsPrefix(base, steps, j);
    }
  }

  lemma StepViewLast(tid: string, base: nat, steps: seq<StepInput>)
    requires |steps| > 0
    ensures StepViewsFrom(tid, base, steps)[|steps| - 1]
         == StepViewOf(StepBase(base, steps, |steps| - 1), tid, steps[|steps| - 1])
  {
    assert steps[..|steps| - 1] == steps[..|steps| - 1][..|steps| - 1];
  }

  lemma StepViewEarlier(tid: string, base: nat, steps: seq<StepInput>, j: nat)
    requires j < |steps| - 1
    ensures StepViewsFrom(tid, base, steps)[j] == StepViewsFrom(tid, base, steps[..|steps| - 1])[j]
  {
  }

  /** Step `j`'s view. */
  lemma {:induction false} StepViewAt(tid: string, base: nat, steps: seq<StepInput>, j: nat)
    requires j < |steps|
    ensures StepViewsFrom(tid, base, steps)[j] == StepViewOf(StepBase(base, steps, j), tid, steps[j])
    decreases |steps|
  {
    if j == |steps| - 1 {
      StepViewLast(tid, base, steps);
    } else {
      StepViewAt(tid, base, steps[..|steps| - 1], j);
      StepViewEarlier(tid, base, steps, j);
      StepsPrefix(base, steps, j);
    }
  }
}
