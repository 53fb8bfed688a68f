/** `StepFour`: the health-interest toggle; its next button has no `disabled` condition. */
module StepFour {
  import opened Wrappers
  import opened Form
  import Wizard

  /** `handleHealthInterestToggle(interest)`: carries the `healthInterests` key only. */
  function HandleHealthInterestToggle(f: FormData, interest: string): (patch: Patch)
    ensures patch.HealthPatch? && patch.health.healthInterests.Some?
    ensures interest in patch.health.healthInterests.value <==> interest !in f.health.healthInterests.GetOr([])
  {
    HealthPatch(Health(Some(Toggle(f.health.healthInterests, interest))))
  }

  /** The toggle flips `interest`, keeps the others, touches no other section, and
      toggling an unselected interest twice restores the list. */
  lemma HealthToggleEffect(f: FormData, interest: string)
    ensures var g := UpdateSection(f, HandleHealthInterestToggle(f, interest));
      && g.health.healthInterests.Some?
      && (interest in g.health.healthInterests.value <==> interest !in f.health.healthInterests.GetOr([]))
      && (forall x :: x != interest ==> (x in g.health.healthInterests.value <==> x in f.health.healthInterests.GetOr([])))
      && SameOutside(f, g, HealthSection)
    ensures interest !in f.health.healthInterests.GetOr([]) ==>
      var g := UpdateSection(f, HandleHealthInterestToggle(f, interest));
      UpdateSection(g, HandleHealthInterestToggle(g, interest)).health.healthInterests == Some(f.health.healthInterests.GetOr([]))
  {
    var l := f.health.healthInterests.GetOr([]);
    if interest !in l {
      ToggleTwiceAbsent(l, interest);
    }
  }

  /** The health step is always passable, whatever the interests. */
  lemma HealthStepAlwaysPassable(f: FormData, interest: string)
    ensures Wizard.IsStepValid(UpdateSection(f, HandleHealthInterestToggle(f, interest)), 4) == Some(true)
  {
  }
}
