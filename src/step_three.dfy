/** `StepThree`: the shopping-channel and favourite-category toggles and the
    gating of the next button. */
module StepThree {
  import opened Wrappers
  import opened Form
  import Wizard

  /** `handleChannelToggle(channel)`: carries the `shoppingChannels` key only. */
  function HandleChannelToggle(f: FormData, channel: string): (patch: Patch)
    ensures patch.ConsumptionPatch? && patch.consumption.favoriteCategories.None?
    ensures patch.consumption.shoppingChannels.Some?
    ensures channel in patch.consumption.shoppingChannels.value <==> channel !in f.consumption.shoppingChannels.GetOr([])
  {
    ConsumptionPatch(Consumption(Some(Toggle(f.consumption.shoppingChannels, channel)), None))
  }

  /** `handleCategoryToggle(category)`: carries the `favoriteCategories` key only. */
  function HandleCategoryToggle(f: FormData, category: string): (patch: Patch)
    ensures patch.ConsumptionPatch? && patch.consumption.shoppingChannels.None?
    ensures patch.consumption.favoriteCategories.Some?
    ensures category in patch.consumption.favoriteCategories.value <==> category !in f.consumption.favoriteCategories.GetOr([])
  {
    ConsumptionPatch(Consumption(None, Some(Toggle(f.consumption.favoriteCategories, category))))
  }

  /** Each toggle flips its id in its own list (a missing list counting as empty)
      and leaves the other list and every other section untouched. */
  lemma TogglesEffect(f: FormData, id: string)
    ensures var g := UpdateSection(f, HandleChannelToggle(f, id));
      && g.consumption.shoppingChannels.Some?
      && (id in g.consumption.shoppingChannels.value <==> id !in f.consumption.shoppingChannels.GetOr([]))
      && g.consumption.favoriteCategories == f.consumption.favoriteCategories
      && SameOutside(f, g, ConsumptionSection)
    ensures var g := UpdateSection(f, HandleCategoryToggle(f, id));
      && g.consumption.favoriteCategories.Some?
      && (id in g.consumption.favoriteCategories.value <==> id !in f.consumption.favoriteCategories.GetOr([]))
      && g.consumption.shoppingChannels == f.consumption.shoppingChannels
      && SameOutside(f, g, ConsumptionSection)
  {
  }

  /** `disabled={!canProceed}`. */
  function NextDisabled(canProceed: bool): bool {
    !canProceed
  }

  /** On step 3 the next button is enabled exactly when a channel or a category is selected. */
  lemma NextEnabledOnStepThree(f: FormData)
    requires Wizard.ListsPresent(f)
    ensures !NextDisabled(Wizard.IsStepValid(f, 3) == Some(true)) <==>
      HasItems(f.consumption.shoppingChannels) || HasItems(f.consumption.favoriteCategories)
  {
    Wizard.StepValidity(f, 3);
  }
}
