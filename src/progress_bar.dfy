/** `ProgressBar`: how each of the five step icons is classified. */
module ProgressBar {

  predicate IsActive(currentStep: int, id: int) { currentStep == id }
  predicate IsCompleted(currentStep: int, id: int) { currentStep > id }
  predicate IsAccessible(currentStep: int, id: int) { currentStep >= id }

  /** Accessible means active or completed, and never both. */
  lemma Classification(currentStep: int, id: int)
    ensures IsAccessible(currentStep, id) <==> IsActive(currentStep, id) || IsCompleted(currentStep, id)
    ensures !(IsActive(currentStep, id) && IsCompleted(currentStep, id))
  {
  }

  /** The step ids 1..n, in order. */
  function StepIds(n: nat): (ids: seq<int>)
    ensures |ids| == n
  {
    if n == 0 then [] else StepIds(n - 1) + [n]
  }

  function CountActive(currentStep: int, ids: seq<int>): nat {
    if ids == [] then 0
    else CountActive(currentStep, ids[..|ids| - 1]) + (if IsActive(currentStep, ids[|ids| - 1]) then 1 else 0)
  }

  function CountCompleted(currentStep: int, ids: seq<int>): nat {
    if ids == [] then 0
    else CountCompleted(currentStep, ids[..|ids| - 1]) + (if IsCompleted(currentStep, ids[|ids| - 1]) then 1 else 0)
  }

  /** Over steps 1..n: one step is active when the current step is among them,
      and every step below the current one is completed. */
  lemma {:induction false} Counts(currentStep: int, n: nat)
    ensures CountActive(currentStep, StepIds(n)) == if 1 <= currentStep <= n then 1 else 0
    ensures CountCompleted(currentStep, StepIds(n)) ==
      if currentStep - 1 <= 0 then 0 else if currentStep - 1 <= n then currentStep - 1 else n
  {
    if n > 0 {
      Counts(currentStep, n - 1);
      assert StepIds(n)[..n - 1] == StepIds(n - 1);
    }
  }

  /** The five-step bar: for a current step in 1..5 exactly one step is active and
      `currentStep - 1` are completed. */
  lemma FiveSteps(currentStep: int)
    requires 1 <= currentStep <= 5
    ensures CountActive(currentStep, StepIds(5)) == 1
    ensures CountCompleted(currentStep, StepIds(5)) == currentStep - 1
  {
    Counts(currentStep, 5);
  }
}
