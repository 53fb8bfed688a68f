/** The DataPay profile ("formData"): five sections whose keys may be missing,
    the shallow merge that `updateFormData(section, data)` performs, and the
    add-or-remove toggle the wizard steps apply to their selection lists. */
module Form {
  import opened Wrappers

  datatype PersonalInfo = PersonalInfo(age: Option<string>, gender: Option<string>, location: Option<string>)
  datatype DigitalHabits = DigitalHabits(socialNetworks: Option<seq<string>>, usageFrequency: Option<int>)
  datatype Consumption = Consumption(shoppingChannels: Option<seq<string>>, favoriteCategories: Option<seq<string>>)
  datatype Health = Health(healthInterests: Option<seq<string>>)
  datatype Advanced = Advanced(incomeRange: Option<string>, professionalArea: Option<string>)

  datatype FormData = FormData(
    personalInfo: PersonalInfo,
    digitalHabits: DigitalHabits,
    consumption: Consumption,
    health: Health,
    advanced: Advanced)

  /** Every section `{}`: no key present at all. */
  const EmptyForm := FormData(
    PersonalInfo(None, None, None), DigitalHabits(None, None),
    Consumption(None, None), Health(None), Advanced(None, None))

  /** JavaScript truthiness of an optional string field: present and not `''`. */
  predicate Truthy(s: Option<string>) { s.Some? && s.value != "" }

  /** JavaScript truthiness of an optional number field: present and not `0`. */
  predicate TruthyNumber(n: Option<int>) { n.Some? && n.value != 0 }

  /** `list?.length > 0`. */
  predicate HasItems(l: Option<seq<string>>) { l.Some? && |l.value| > 0 }

  /** The `data` argument of `updateFormData(section, data)`: the section it names
      and, for that section, the keys it carries (`Some`) and those it does not (`None`). */
  datatype Patch =
    | PersonalInfoPatch(personalInfo: PersonalInfo)
    | DigitalHabitsPatch(digitalHabits: DigitalHabits)
    | ConsumptionPatch(consumption: Consumption)
    | HealthPatch(health: Health)
    | AdvancedPatch(advanced: Advanced)

  /** One key of `{ ...prev, ...data }`. */
  function Pick<T>(prev: Option<T>, data: Option<T>): (r: Option<T>)
    ensures data.Some? ==> r == data
    ensures data.None? ==> r == prev
  {
    if data.Some? then data else prev
  }

  /** `{ ...prev, [section]: { ...prev[section], ...data } }`. */
  function UpdateSection(f: FormData, patch: Patch): (r: FormData)
  {
    match patch
    case PersonalInfoPatch(d) =>
      var p := f.personalInfo;
      f.(personalInfo := PersonalInfo(Pick(p.age, d.age), Pick(p.gender, d.gender), Pick(p.location, d.location)))
    case DigitalHabitsPatch(d) =>
      var p := f.digitalHabits;
      f.(digitalHabits := DigitalHabits(Pick(p.socialNetworks, d.socialNetworks), Pick(p.usageFrequency, d.usageFrequency)))
    case ConsumptionPatch(d) =>
      var p := f.consumption;
      f.(consumption := Consumption(Pick(p.shoppingChannels, d.shoppingChannels), Pick(p.favoriteCategories, d.favoriteCategories)))
    case HealthPatch(d) =>
      f.(health := Health(Pick(f.health.healthInterests, d.healthInterests)))
    case AdvancedPatch(d) =>
      var p := f.advanced;
      f.(advanced := Advanced(Pick(p.incomeRange, d.incomeRange), Pick(p.professionalArea, d.professionalArea)))
  }

  /** The section a patch names. */
  datatype Section = PersonalInfoSection | DigitalHabitsSection | ConsumptionSection | HealthSection | AdvancedSection

  function SectionOf(patch: Patch): Section {
    match patch
    case PersonalInfoPatch(_) => PersonalInfoSection
    case DigitalHabitsPatch(_) => DigitalHabitsSection
    case ConsumptionPatch(_) => ConsumptionSection
    case HealthPatch(_) => HealthSection
    case AdvancedPatch(_) => AdvancedSection
  }

  /** Two forms agree on every section except possibly `s`. */
  predicate SameOutside(f: FormData, g: FormData, s: Section) {
    && (s != PersonalInfoSection ==> f.personalInfo == g.personalInfo)
    && (s != DigitalHabitsSection ==> f.digitalHabits == g.digitalHabits)
    && (s != ConsumptionSection ==> f.consumption == g.consumption)
    && (s != HealthSection ==> f.health == g.health)
    && (s != AdvancedSection ==> f.advanced == g.advanced)
  }

  /** A patch that carries no key at all (`updateFormData(section, {})`). */
  predicate EmptyPatch(patch: Patch) {
    match patch
    case PersonalInfoPatch(d) => d == PersonalInfo(None, None, None)
    case DigitalHabitsPatch(d) => d == DigitalHabits(None, None)
    case ConsumptionPatch(d) => d == Consumption(None, None)
    case HealthPatch(d) => d == Health(None)
    case AdvancedPatch(d) => d == Advanced(None, None)
  }

  /** `{ ...p, ...q }` for two patches of the same section. */
  function Combine(p: Patch, q: Patch): (r: Patch)
    requires SectionOf(p) == SectionOf(q)
    ensures SectionOf(r) == SectionOf(p)
  {
    match (p, q)
    case (PersonalInfoPatch(a), PersonalInfoPatch(b)) =>
      PersonalInfoPatch(PersonalInfo(Pick(a.age, b.age), Pick(a.gender, b.gender), Pick(a.location, b.location)))
    case (DigitalHabitsPatch(a), DigitalHabitsPatch(b)) =>
      DigitalHabitsPatch(DigitalHabits(Pick(a.socialNetworks, b.socialNetworks), Pick(a.usageFrequency, b.usageFrequency)))
    case (ConsumptionPatch(a), ConsumptionPatch(b)) =>
      ConsumptionPatch(Consumption(Pick(a.shoppingChannels, b.shoppingChannels), Pick(a.favoriteCategories, b.favoriteCategories)))
    case (HealthPatch(a), HealthPatch(b)) =>
      HealthPatch(Health(Pick(a.healthInterests, b.healthInterests)))
    case (AdvancedPatch(a), AdvancedPatch(b)) =>
      AdvancedPatch(Advanced(Pick(a.incomeRange, b.incomeRange), Pick(a.professionalArea, b.professionalArea)))
  }

  /** The merge touches only the named section. */
  lemma UpdateOnlyTouchesSection(f: FormData, patch: Patch)
    ensures SameOutside(f, UpdateSection(f, patch), SectionOf(patch))
  {
  }

  /** An empty `data` object changes nothing, and merging the same `data` twice is merging it once. */
  lemma UpdateNeutralAndIdempotent(f: FormData, patch: Patch)
    ensures EmptyPatch(patch) ==> UpdateSection(f, patch) == f
    ensures UpdateSection(UpdateSection(f, patch), patch) == UpdateSection(f, patch)
  {
  }

  /** Two successive merges into one section equal one merge of the combined data:
      later keys win, earlier keys the second call does not carry survive. */
  lemma UpdateSequence(f: FormData, p: Patch, q: Patch)
    requires SectionOf(p) == SectionOf(q)
    ensures UpdateSection(UpdateSection(f, p), q) == UpdateSection(f, Combine(p, q))
  {
  }

  /** `list.filter(x => x !== id)`. */
  function Remove(l: seq<string>, id: string): (r: seq<string>)
    ensures forall x :: x in r <==> x in l && x != id
    ensures |r| <= |l|
  {
    if l == [] then [] else (if l[0] == id then [] else [l[0]]) + Remove(l[1..], id)
  }

  /** Filtering distributes over concatenation, so the other ids keep their relative order. */
  lemma {:induction false} RemoveAppend(a: seq<string>, b: seq<string>, id: string)
    ensures Remove(a + b, id) == Remove(a, id) + Remove(b, id)
  {
    if a == [] {
      assert a + b == b;
    } else {
      assert (a + b)[0] == a[0] && (a + b)[1..] == a[1..] + b;
      RemoveAppend(a[1..], b, id);
    }
  }

  lemma {:induction false} RemoveAbsent(l: seq<string>, id: string)
    requires id !in l
    ensures Remove(l, id) == l
  {
    if l != [] {
      RemoveAbsent(l[1..], id);
    }
  }

  /** The step handlers' selection toggle: treat a missing list as `[]`, then
      remove `id` if it is selected and append it otherwise. */
  function Toggle(current: Option<seq<string>>, id: string): (r: seq<string>)
    ensures id in r <==> id !in current.GetOr([])
    ensures forall x :: x != id ==> (x in r <==> x in current.GetOr([]))
  {
    var l := current.GetOr([]);
    if id in l then Remove(l, id) else l + [id]
  }

  /** Toggling an id that was not selected, twice, restores the list. */
  lemma ToggleTwiceAbsent(l: seq<string>, id: string)
    requires id !in l
    ensures Toggle(Some(Toggle(Some(l), id)), id) == l
  {
    RemoveAppend(l, [id], id);
    RemoveAbsent(l, id);
  }

  /** Toggling a selected id twice removes every copy and appends one at the end. */
  lemma ToggleTwicePresent(l: seq<string>, id: string)
    requires id in l
    ensures Toggle(Some(Toggle(Some(l), id)), id) == Remove(l, id) + [id]
  {
  }
}
