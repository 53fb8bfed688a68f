/** The `useFormData` hook: the form, the current step (1..5) and the completion
    flag, with the navigation operations and the per-step validity queries.
    `createInitialFormData` is a constructor parameter. */
module Wizard {
  import opened Wrappers
  import opened Form
  import Calculations

  /** `isStepValid(step)`. `None` stands for the `TypeError` raised when a list the
      test reads is missing; `||` reads `favoriteCategories` only when
      `shoppingChannels` is empty. */
  function IsStepValid(f: FormData, step: int): (valid: Option<bool>)
    ensures valid.None? <==>
      || (step == 2 && f.digitalHabits.socialNetworks.None?)
      || (step == 3 && (f.consumption.shoppingChannels.None? ||
                        (|f.consumption.shoppingChannels.value| == 0 && f.consumption.favoriteCategories.None?)))
    ensures step == 4 ==> valid == Some(true)
    ensures !(1 <= step <= 5) ==> valid == Some(false)
  {
    if step == 1 then
      Some(Truthy(f.personalInfo.age) && Truthy(f.personalInfo.gender) && Truthy(f.personalInfo.location))
    else if step == 2 then
      if f.digitalHabits.socialNetworks.None? then None else Some(|f.digitalHabits.socialNetworks.value| > 0)
    else if step == 3 then
      if f.consumption.shoppingChannels.None? then None
      else if |f.consumption.shoppingChannels.value| > 0 then Some(true)
      else if f.consumption.favoriteCategories.None? then None
      else Some(|f.consumption.favoriteCategories.value| > 0)
    else if step == 4 then Some(true)
    else if step == 5 then
      Some(Truthy(f.advanced.incomeRange) && Truthy(f.advanced.professionalArea))
    else Some(false)
  }

  /** Every selection list the step tests read is present. */
  predicate ListsPresent(f: FormData) {
    f.digitalHabits.socialNetworks.Some? && f.consumption.shoppingChannels.Some? && f.consumption.favoriteCategories.Some?
  }

  /** The per-step completeness table: step 1 needs age, gender and location;
      step 2 a network; step 3 a channel OR a category; step 4 nothing; step 5
      income and profession; any other step is never valid. */
  lemma StepValidity(f: FormData, step: int)
    requires ListsPresent(f)
    ensures IsStepValid(f, step) == Some(
      if step == 1 then Truthy(f.personalInfo.age) && Truthy(f.personalInfo.gender) && Truthy(f.personalInfo.location)
      else if step == 2 then HasItems(f.digitalHabits.socialNetworks)
      else if step == 3 then HasItems(f.consumption.shoppingChannels) || HasItems(f.consumption.favoriteCategories)
      else if step == 4 then true
      else if step == 5 then Truthy(f.advanced.incomeRange) && Truthy(f.advanced.professionalArea)
      else false)
  {
  }

  /** A missing network list makes step 2's test throw; a missing channel list
      makes step 3's test throw even when categories are selected. */
  lemma MissingListsThrow(f: FormData)
    ensures f.digitalHabits.socialNetworks.None? ==> IsStepValid(f, 2).None?
    ensures f.consumption.shoppingChannels.None? ==> IsStepValid(f, 3).None?
  {
  }

  /** `getProgress()`: 100 once complete, otherwise `Math.round(step / 5 * 100)`. */
  function Progress(step: int, complete: bool): (p: int)
    ensures 1 <= step <= 5 ==> p == if complete then 100 else 20 * step
    ensures 1 <= step <= 5 ==> 20 <= p <= 100
  {
    if complete then 100 else Calculations.Round(step as real / 5.0 * 100.0)
  }

  class FormState {
    var formData: FormData
    var currentStep: int
    var isComplete: bool
    const initialForm: FormData

    ghost predicate Valid()
      reads this
    {
      1 <= currentStep <= 5
    }

    constructor (initial: FormData)
      ensures Valid()
      ensures initialForm == initial && formData == initial
      ensures currentStep == 1 && !isComplete
    {
      initialForm := initial;
      formData := initial;
      currentStep := 1;
      isComplete := false;
    }

    /** `updateFormData(section, data)`: shallow merge into one section. */
    method UpdateFormData(patch: Patch)
      requires Valid()
      modifies this
      ensures Valid()
      ensures formData == UpdateSection(old(formData), patch)
      ensures SameOutside(formData, old(formData), SectionOf(patch))
      ensures currentStep == old(currentStep) && isComplete == old(isComplete)
    {
      UpdateOnlyTouchesSection(formData, patch);
      formData := UpdateSection(formData, patch);
    }

    /** `nextStep()`: advance below step 5, otherwise mark complete; validity is not consulted. */
    method NextStep()
      requires Valid()
      modifies this
      ensures Valid() && formData == old(formData)
      ensures old(currentStep) < 5 ==> currentStep == old(currentStep) + 1 && isComplete == old(isComplete)
      ensures old(currentStep) == 5 ==> currentStep == 5 && isComplete
    {
      if currentStep < 5 {
        currentStep := currentStep + 1;
      } else {
        isComplete := true;
      }
    }

    /** `prevStep()`: go back above step 1, a no-op at step 1. */
    method PrevStep()
      requires Valid()
      modifies this
      ensures Valid() && formData == old(formData) && isComplete == old(isComplete)
      ensures currentStep == if old(currentStep) > 1 then old(currentStep) - 1 else 1
    {
      if currentStep > 1 {
        currentStep := currentStep - 1;
      }
    }

    /** `goToStep(step)`: only 1..5 is accepted; it also clears `isComplete`. */
    method GoToStep(step: int)
      requires Valid()
      modifies this
      ensures Valid() && formData == old(formData)
      ensures 1 <= step <= 5 ==> currentStep == step && !isComplete
      ensures !(1 <= step <= 5) ==> currentStep == old(currentStep) && isComplete == old(isComplete)
    {
      if 1 <= step <= 5 {
        currentStep := step;
        isComplete := false;
      }
    }

    /** `resetForm()`. */
    method ResetForm()
      requires Valid()
      modifies this
      ensures Valid()
      ensures formData == initialForm && currentStep == 1 && !isComplete
    {
      formData := initialForm;
      currentStep := 1;
      isComplete := false;
    }

    /** `canProceed()`: the validity of the current step. */
    function CanProceed(): (r: Option<bool>)
      reads this
      requires Valid()
      ensures ListsPresent(formData) ==> r.Some?
      ensures currentStep == 4 ==> r == Some(true)
    {
      IsStepValid(formData, currentStep)
    }

    /** `getProgress()`. */
    function GetProgress(): (p: int)
      reads this
      requires Valid()
      ensures p == if isComplete then 100 else 20 * currentStep
    {
      Progress(currentStep, isComplete)
    }
  }
}
