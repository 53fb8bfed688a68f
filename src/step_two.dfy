/** `StepTwo`: the social-network toggle, the frequency slider and its label. */
module StepTwo {
  import opened Wrappers
  import opened Form

  /** `handleSocialNetworkToggle(network)`: the `data` handed to `updateFormData`,
      which carries the `socialNetworks` key only. */
  function HandleSocialNetworkToggle(f: FormData, network: string): (patch: Patch)
    ensures patch.DigitalHabitsPatch? && patch.digitalHabits.usageFrequency.None?
    ensures patch.digitalHabits.socialNetworks.Some?
    ensures network in patch.digitalHabits.socialNetworks.value <==> network !in f.digitalHabits.socialNetworks.GetOr([])
  {
    DigitalHabitsPatch(DigitalHabits(Some(Toggle(f.digitalHabits.socialNetworks, network)), None))
  }

  /** After the toggle is merged, `network` is selected exactly when it was not,
      every other network keeps its selection, the frequency and every other
      section are untouched. */
  lemma SocialNetworkToggleEffect(f: FormData, network: string)
    ensures var g := UpdateSection(f, HandleSocialNetworkToggle(f, network));
      var before := f.digitalHabits.socialNetworks.GetOr([]);
      && g.digitalHabits.socialNetworks.Some?
      && (network in g.digitalHabits.socialNetworks.value <==> network !in before)
      && (forall x :: x != network ==> (x in g.digitalHabits.socialNetworks.value <==> x in before))
      && g.digitalHabits.usageFrequency == f.digitalHabits.usageFrequency
      && SameOutside(f, g, DigitalHabitsSection)
  {
  }

  /** `handleFrequencyChange(value)`: the slider's first (only) thumb value. */
  function HandleFrequencyChange(value: seq<int>): (patch: Patch)
    requires |value| > 0
    ensures patch.DigitalHabitsPatch? && patch.digitalHabits.socialNetworks.None?
    ensures patch.digitalHabits.usageFrequency == Some(value[0])
  {
    DigitalHabitsPatch(DigitalHabits(None, Some(value[0])))
  }

  lemma FrequencyChangeEffect(f: FormData, value: seq<int>)
    requires |value| > 0
    ensures var g := UpdateSection(f, HandleFrequencyChange(value));
      && g.digitalHabits.usageFrequency == Some(value[0])
      && g.digitalHabits.socialNetworks == f.digitalHabits.socialNetworks
      && SameOutside(f, g, DigitalHabitsSection)
  {
  }

  /** The slider's shown value: a missing (or zero) frequency shows as 5. */
  function DisplayedFrequency(d: DigitalHabits): (v: int)
    ensures TruthyNumber(d.usageFrequency) ==> v == d.usageFrequency.value
    ensures !TruthyNumber(d.usageFrequency) ==> v == 5
  {
    if TruthyNumber(d.usageFrequency) then d.usageFrequency.value else 5
  }

  /** `getFrequencyLabel(value)`. */
  function GetFrequencyLabel(value: int): (s: string)
    ensures s == "Pouco" <==> value <= 3
    ensures s == "Médio" <==> 3 < value <= 7
    ensures s == "Muito" <==> value > 7
  {
    if value <= 3 then "Pouco" else if value <= 7 then "Médio" else "Muito"
  }

  /** On the slider's range 1..10 the label is monotone: a higher value never gets a lower label. */
  lemma FrequencyLabelMonotone(a: int, b: int)
    requires 1 <= a <= b <= 10
    ensures GetFrequencyLabel(a) == "Muito" ==> GetFrequencyLabel(b) == "Muito"
    ensures GetFrequencyLabel(b) == "Pouco" ==> GetFrequencyLabel(a) == "Pouco"
  {
  }
}
