/**
 * A cursor over a fixed, ordered list of steps: the step sequencer that the
 * Attack and Defense flows each define over their own list.
 */
module Steps {
  import opened Rounding

  predicate Distinct<T(==)>(steps: seq<T>) {
    forall i, j :: 0 <= i < j < |steps| ==> steps[i] != steps[j]
  }

  /** `steps.indexOf(step)`: the first position holding `step`, or -1. */
  function IndexOf<T(==)>(steps: seq<T>, step: T): (i: int)
    ensures -1 <= i < |steps|
    ensures i >= 0 ==> steps[i] == step && forall j :: 0 <= j < i ==> steps[j] != step
    ensures i == -1 ==> step !in steps
  {
    if steps == [] then -1
    else if steps[0] == step then 0
    else
      var k := IndexOf(steps[1..], step);
      if k == -1 then -1 else k + 1
  }

  /** `nextStep`: the step after the current one; the last step stays where it is. */
  function Next<T(==)>(steps: seq<T>, step: T): (r: T)
    requires |steps| > 0
    ensures 0 <= IndexOf(steps, step) < |steps| - 1 ==> r == steps[IndexOf(steps, step) + 1]
    ensures IndexOf(steps, step) == |steps| - 1 ==> r == step
    ensures step !in steps && |steps| > 1 ==> r == steps[0]
    ensures r in steps || r == step
  {
    var i := IndexOf(steps, step);
    if i < |steps| - 1 then steps[i + 1] else step
  }

  /** Each step of a list without repeats advances exactly one place, and the last one does not move. */
  lemma NextMovesOnePlace<T>(steps: seq<T>, i: nat)
    requires Distinct(steps) && i < |steps|
    ensures i < |steps| - 1 ==> Next(steps, steps[i]) == steps[i + 1]
    ensures i == |steps| - 1 ==> Next(steps, steps[i]) == steps[i]
  {
    var k := IndexOf(steps, steps[i]);
    assert k == i;
  }

  /** The step reached by `k` calls of `nextStep`. */
  function Advance<T(==)>(steps: seq<T>, step: T, k: nat): T
    requires |steps| > 0
    decreases k
  {
    if k == 0 then step else Advance(steps, Next(steps, step), k - 1)
  }

  /** From any step, `k` calls move `k` places, stopping at the last step: none is skipped or passed. */
  lemma {:induction false} AdvanceFrom<T>(steps: seq<T>, i: nat, k: nat)
    requires Distinct(steps) && i < |steps|
    ensures Advance(steps, steps[i], k) == steps[Min(i + k, |steps| - 1)]
    decreases k
  {
    if k > 0 {
      NextMovesOnePlace(steps, i);
      if i < |steps| - 1 {
        AdvanceFrom(steps, i + 1, k - 1);
      } else {
        AdvanceFrom(steps, i, k - 1);
      }
    }
  }
}
