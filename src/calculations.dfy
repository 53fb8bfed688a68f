/** The DataPay valuation engine: five category scorers over the profile sections,
    the weighted total with its breakdown, and the fixed insight predicates.
    The scoring tables (`BASE_VALUES`) and weights (`CALCULATION_WEIGHTS`) are
    parameters; arithmetic is exact over `real`. */
module Calculations {
  import opened Wrappers
  import opened Text
  import opened Form

  datatype Tables = Tables(
    ageMultipliers: map<string, real>,
    genderMultipliers: map<string, real>,
    locationBase: real,
    socialNetworkValues: map<string, real>,
    frequencyMultiplier: real,
    channelValues: map<string, real>,
    categoryValues: map<string, real>,
    interestValues: map<string, real>,
    incomeMultipliers: map<string, real>,
    professionalMultipliers: map<string, real>)

  datatype Weights = Weights(demographics: real, digitalHabits: real, consumption: real, health: real, advanced: real)

  predicate NonNegativeValues(m: map<string, real>) { forall k :: k in m ==> m[k] >= 0.0 }

  /** Every table entry and constant is non-negative. */
  predicate NonNegativeTables(t: Tables) {
    && NonNegativeValues(t.ageMultipliers) && NonNegativeValues(t.genderMultipliers)
    && t.locationBase >= 0.0 && NonNegativeValues(t.socialNetworkValues) && t.frequencyMultiplier >= 0.0
    && NonNegativeValues(t.channelValues) && NonNegativeValues(t.categoryValues)
    && NonNegativeValues(t.interestValues) && NonNegativeValues(t.incomeMultipliers)
    && NonNegativeValues(t.professionalMultipliers)
  }

  /** `Math.round(x)`: the integer nearest to `x`, halves rounded up. */
  function Round(x: real): (r: int)
    ensures r as real - 0.5 <= x < r as real + 0.5
  {
    (x + 0.5).Floor
  }

  /** `table[key] || 1.0`: a missing entry, and an entry equal to 0, count as 1.0. */
  function Multiplier(table: map<string, real>, key: string): (m: real)
    ensures key !in table ==> m == 1.0
    ensures m != 0.0
  {
    if key in table && table[key] != 0.0 then table[key] else 1.0
  }

  /** `table[key] || 0`: an unknown id is worth nothing. */
  function ItemValue(table: map<string, real>, key: string): real {
    if key in table then table[key] else 0.0
  }

  /** The `forEach` accumulation: the table value of every selected id, in list order. */
  function SumValues(table: map<string, real>, ids: seq<string>): real {
    if ids == [] then 0.0 else SumValues(table, ids[..|ids| - 1]) + ItemValue(table, ids[|ids| - 1])
  }

  /** `getAgeRange(age)`: the bucket of `parseInt(age)`; everything outside 18..54,
      including ages under 18 and text that does not parse, lands in '55+'. */
  function AgeRange(age: string): (bucket: string)
    ensures bucket in {"18-24", "25-34", "35-44", "45-54", "55+"}
  {
    match ParseInt(age)
    case None => "55+"
    case Some(n) =>
      if 18 <= n <= 24 then "18-24"
      else if 25 <= n <= 34 then "25-34"
      else if 35 <= n <= 44 then "35-44"
      else if 45 <= n <= 54 then "45-54"
      else "55+"
  }

  /** `calculateDemographicsValue`: gender only scales what age contributed, so
      without age and location the section is worth nothing. */
  function CalculateDemographicsValue(p: PersonalInfo, t: Tables): (v: int)
    ensures !Truthy(p.age) && !Truthy(p.location) ==> v == 0
  {
    var byAge := if Truthy(p.age) then 40.0 * Multiplier(t.ageMultipliers, AgeRange(p.age.value)) else 0.0;
    var byGender := if Truthy(p.gender) then byAge * Multiplier(t.genderMultipliers, p.gender.value) else byAge;
    var byLocation := if Truthy(p.location) then byGender + t.locationBase else byGender;
    Round(byLocation)
  }

  /** `calculateDigitalHabitsValue`: no network and no truthy frequency is worth nothing. */
  function CalculateDigitalHabitsValue(d: DigitalHabits, t: Tables): (v: int)
    ensures d.socialNetworks.GetOr([]) == [] && !TruthyNumber(d.usageFrequency) ==> v == 0
  {
    var networks := SumValues(t.socialNetworkValues, d.socialNetworks.GetOr([]));
    var frequency := if TruthyNumber(d.usageFrequency) then d.usageFrequency.value as real * t.frequencyMultiplier else 0.0;
    Round(networks + frequency)
  }

  /** `calculateConsumptionValue`: no channel and no category is worth nothing. */
  function CalculateConsumptionValue(c: Consumption, t: Tables): (v: int)
    ensures c.shoppingChannels.GetOr([]) == [] && c.favoriteCategories.GetOr([]) == [] ==> v == 0
  {
    Round(SumValues(t.channelValues, c.shoppingChannels.GetOr([]))
          + SumValues(t.categoryValues, c.favoriteCategories.GetOr([])))
  }

  /** `calculateHealthValue`: no interest is worth nothing. */
  function CalculateHealthValue(h: Health, t: Tables): (v: int)
    ensures h.healthInterests.GetOr([]) == [] ==> v == 0
  {
    Round(SumValues(t.interestValues, h.healthInterests.GetOr([])))
  }

  /** `calculateAdvancedValue`: the base 30 stays when neither field is truthy. */
  function CalculateAdvancedValue(a: Advanced, t: Tables): (v: int)
    ensures !Truthy(a.incomeRange) && !Truthy(a.professionalArea) ==> v == 30
  {
    var byIncome := if Truthy(a.incomeRange) then 30.0 * Multiplier(t.incomeMultipliers, a.incomeRange.value) else 30.0;
    var byArea := if Truthy(a.professionalArea) then byIncome * Multiplier(t.professionalMultipliers, a.professionalArea.value) else byIncome;
    Round(byArea)
  }

  datatype Categories = Categories(demographics: int, digitalHabits: int, consumption: int, health: int, advanced: int)

  datatype Valuation = Valuation(total: int, breakdown: Categories, rawValues: Categories)

  function Sum(c: Categories): int {
    c.demographics + c.digitalHabits + c.consumption + c.health + c.advanced
  }

  /** The five scorer outputs (`rawValues`). */
  function RawValues(f: FormData, t: Tables): Categories {
    Categories(
      CalculateDemographicsValue(f.personalInfo, t),
      CalculateDigitalHabitsValue(f.digitalHabits, t),
      CalculateConsumptionValue(f.consumption, t),
      CalculateHealthValue(f.health, t),
      CalculateAdvancedValue(f.advanced, t))
  }

  /** Weighting, summing, rounding and packaging of the raw values. */
  function Weigh(raw: Categories, w: Weights): (v: Valuation)
    ensures v.rawValues == raw
    ensures -2 <= v.total - Sum(v.breakdown) <= 2
  {
    var d := raw.demographics as real * w.demographics;
    var g := raw.digitalHabits as real * w.digitalHabits;
    var c := raw.consumption as real * w.consumption;
    var h := raw.health as real * w.health;
    var a := raw.advanced as real * w.advanced;
    Valuation(
      Round(d + g + c + h + a),
      Categories(Round(d), Round(g), Round(c), Round(h), Round(a)),
      raw)
  }

  /** `calculateTotalValue(formData)`. */
  function CalculateTotalValue(f: FormData, t: Tables, w: Weights): (v: Valuation)
    ensures -2 <= v.total - Sum(v.breakdown) <= 2
    ensures f == EmptyForm ==> v.rawValues == Categories(0, 0, 0, 0, 30)
  {
    Weigh(RawValues(f, t), w)
  }

  // ---------------------------------------------------------------- sums

  lemma {:induction false} SumValuesAppend(table: map<string, real>, a: seq<string>, b: seq<string>)
    ensures SumValues(table, a + b) == SumValues(table, a) + SumValues(table, b)
    decreases |b|
  {
    if b == [] {
      assert a + b == a;
    } else {
      assert (a + b)[..|a + b| - 1] == a + b[..|b| - 1];
      SumValuesAppend(table, a, b[..|b| - 1]);
    }
  }

  lemma SumValuesSingleton(table: map<string, real>, id: string)
    ensures SumValues(table, [id]) == ItemValue(table, id)
  {
    assert [id][..0] == [];
  }

  /** Taking one element out of a list takes its value out of the sum. */
  lemma SumValuesRemove(table: map<string, real>, b: seq<string>, j: nat)
    requires j < |b|
    ensures SumValues(table, b) == ItemValue(table, b[j]) + SumValues(table, b[..j] + b[j + 1..])
    ensures multiset(b[..j] + b[j + 1..]) == multiset(b) - multiset{b[j]}
  {
    assert b == b[..j] + [b[j]] + b[j + 1..];
    SumValuesAppend(table, b[..j] + [b[j]], b[j + 1..]);
    SumValuesAppend(table, b[..j], [b[j]]);
    SumValuesAppend(table, b[..j], b[j + 1..]);
    SumValuesSingleton(table, b[j]);
  }

  /** The selection order is irrelevant: any permutation of the ids has the same sum. */
  lemma {:induction false} SumValuesPermutation(table: map<string, real>, a: seq<string>, b: seq<string>)
    requires multiset(a) == multiset(b)
    ensures SumValues(table, a) == SumValues(table, b)
    decreases |a|
  {
    if a != [] {
      var x := a[0];
      assert x in multiset(b);
      var j :| 0 <= j < |b| && b[j] == x;
      SumValuesRemove(table, b, j);
      SumValuesRemove(table, a, 0);
      assert a[..0] + a[1..] == a[1..];
      SumValuesPermutation(table, a[1..], b[..j] + b[j + 1..]);
    }
  }


  /** Ids missing from the table add nothing, wherever they appear. */
  lemma SumValuesUnknown(table: map<string, real>, ids: seq<string>, id: string)
    requires id !in table
    ensures SumValues(table, ids + [id]) == SumValues(table, ids)
  {
    assert (ids + [id])[..|ids|] == ids;
  }

  lemma {:induction false} SumValuesNonNegative(table: map<string, real>, ids: seq<string>)
    requires NonNegativeValues(table)
    ensures SumValues(table, ids) >= 0.0
  {
    if ids != [] {
      SumValuesNonNegative(table, ids[..|ids| - 1]);
    }
  }

  // ---------------------------------------------------------------- scorers

  /** A numeric age string lands in the bucket of its value; ages under 18 and
      text without leading digits land in '55+'. */
  lemma AgeRangeOfNumber(n: nat)
    ensures AgeRange(NatToString(n)) ==
      if 18 <= n <= 24 then "18-24" else if 25 <= n <= 34 then "25-34"
      else if 35 <= n <= 44 then "35-44" else if 45 <= n <= 54 then "45-54" else "55+"
    ensures AgeRange("abc") == "55+"
  {
    ParseIntOfNatToString(n);
    assert LeadingDigits("abc") == "";
  }

  /** Age contributes 40 times its multiplier; gender scales only what age
      contributed (so gender alone is worth 0); the location base is added last;
      an empty section scores 0. */
  lemma DemographicsShape(p: PersonalInfo, t: Tables)
    ensures !Truthy(p.age) && !Truthy(p.location) ==> CalculateDemographicsValue(p, t) == 0
    ensures !Truthy(p.age) && Truthy(p.location) ==> CalculateDemographicsValue(p, t) == Round(t.locationBase)
    ensures Truthy(p.age) && !Truthy(p.gender) && !Truthy(p.location) ==>
      CalculateDemographicsValue(p, t) == Round(40.0 * Multiplier(t.ageMultipliers, AgeRange(p.age.value)))
    ensures p == PersonalInfo(None, None, None) ==> CalculateDemographicsValue(p, t) == 0
    ensures Truthy(p.age) ==>
      CalculateDemographicsValue(p, t) ==
        Round(40.0 * Multiplier(t.ageMultipliers, AgeRange(p.age.value))
                   * (if Truthy(p.gender) then Multiplier(t.genderMultipliers, p.gender.value) else 1.0)
              + (if Truthy(p.location) then t.locationBase else 0.0))
  {
  }

  /** Digital habits: the network values plus frequency times the multiplier, the
      latter only when the frequency is truthy; the network order never matters. */
  lemma DigitalHabitsShape(d: DigitalHabits, t: Tables, reordered: seq<string>)
    requires d.socialNetworks.Some? && multiset(reordered) == multiset(d.socialNetworks.value)
    ensures CalculateDigitalHabitsValue(d.(socialNetworks := Some(reordered)), t) == CalculateDigitalHabitsValue(d, t)
    ensures !TruthyNumber(d.usageFrequency) ==>
      CalculateDigitalHabitsValue(d, t) == Round(SumValues(t.socialNetworkValues, d.socialNetworks.value))
  {
    SumValuesPermutation(t.socialNetworkValues, reordered, d.socialNetworks.value);
  }

  /** Consumption and health are order-independent sums; absent lists contribute 0. */
  lemma ConsumptionAndHealthShape(c: Consumption, h: Health, t: Tables, channels: seq<string>, categories: seq<string>, interests: seq<string>)
    requires multiset(channels) == multiset(c.shoppingChannels.GetOr([]))
    requires multiset(categories) == multiset(c.favoriteCategories.GetOr([]))
    requires multiset(interests) == multiset(h.healthInterests.GetOr([]))
    ensures CalculateConsumptionValue(Consumption(Some(channels), Some(categories)), t) == CalculateConsumptionValue(c, t)
    ensures CalculateHealthValue(Health(Some(interests)), t) == CalculateHealthValue(h, t)
    ensures CalculateConsumptionValue(Consumption(None, None), t) == 0
    ensures CalculateHealthValue(Health(None), t) == 0
  {
    SumValuesPermutation(t.channelValues, channels, c.shoppingChannels.GetOr([]));
    SumValuesPermutation(t.categoryValues, categories, c.favoriteCategories.GetOr([]));
    SumValuesPermutation(t.interestValues, interests, h.healthInterests.GetOr([]));
  }

  /** Advanced starts at 30 and is scaled by the two multipliers: an empty section
      scores 30, not 0; either field alone scales the base by its own multiplier;
      an unknown income range or profession leaves the base unscaled. */
  lemma AdvancedShape(a: Advanced, t: Tables)
    ensures a == Advanced(None, None) ==> CalculateAdvancedValue(a, t) == 30
    ensures Truthy(a.incomeRange) && !Truthy(a.professionalArea) ==>
      CalculateAdvancedValue(a, t) == Round(30.0 * Multiplier(t.incomeMultipliers, a.incomeRange.value))
    ensures !Truthy(a.incomeRange) && Truthy(a.professionalArea) ==>
      CalculateAdvancedValue(a, t) == Round(30.0 * Multiplier(t.professionalMultipliers, a.professionalArea.value))
    ensures ((Truthy(a.incomeRange) ==> a.incomeRange.value !in t.incomeMultipliers)
             && (Truthy(a.professionalArea) ==> a.professionalArea.value !in t.professionalMultipliers))
      ==> CalculateAdvancedValue(a, t) == 30
  {
  }

  lemma ProductNonNegative(x: real, y: real)
    requires x >= 0.0 && y >= 0.0
    ensures x * y >= 0.0
  {
  }

  lemma MultiplierNonNegative(table: map<string, real>, key: string)
    requires NonNegativeValues(table)
    ensures Multiplier(table, key) > 0.0
  {
  }

  lemma DemographicsNonNegative(p: PersonalInfo, t: Tables)
    requires NonNegativeTables(t)
    ensures CalculateDemographicsValue(p, t) >= 0
  {
    var byAge := if Truthy(p.age) then 40.0 * Multiplier(t.ageMultipliers, AgeRange(p.age.value)) else 0.0;
    if Truthy(p.age) {
      MultiplierNonNegative(t.ageMultipliers, AgeRange(p.age.value));
    }
    assert byAge >= 0.0;
    if Truthy(p.gender) {
      MultiplierNonNegative(t.genderMultipliers, p.gender.value);
      ProductNonNegative(byAge, Multiplier(t.genderMultipliers, p.gender.value));
    }
  }

  lemma AdvancedNonNegative(a: Advanced, t: Tables)
    requires NonNegativeTables(t)
    ensures CalculateAdvancedValue(a, t) >= 0
  {
    var byIncome := if Truthy(a.incomeRange) then 30.0 * Multiplier(t.incomeMultipliers, a.incomeRange.value) else 30.0;
    if Truthy(a.incomeRange) {
      MultiplierNonNegative(t.incomeMultipliers, a.incomeRange.value);
    }
    assert byIncome >= 0.0;
    if Truthy(a.professionalArea) {
      MultiplierNonNegative(t.professionalMultipliers, a.professionalArea.value);
      ProductNonNegative(byIncome, Multiplier(t.professionalMultipliers, a.professionalArea.value));
    }
  }

  /** With non-negative tables (and a frequency from the slider's non-negative
      range) every scorer is non-negative. */
  lemma ScorersNonNegative(f: FormData, t: Tables)
    requires NonNegativeTables(t)
    requires f.digitalHabits.usageFrequency.GetOr(0) >= 0
    ensures var raw := RawValues(f, t);
      raw.demographics >= 0 && raw.digitalHabits >= 0 && raw.consumption >= 0 && raw.health >= 0 && raw.advanced >= 0
  {
    DemographicsNonNegative(f.personalInfo, t);
    AdvancedNonNegative(f.advanced, t);
    SumValuesNonNegative(t.socialNetworkValues, f.digitalHabits.socialNetworks.GetOr([]));
    if TruthyNumber(f.digitalHabits.usageFrequency) && f.digitalHabits.usageFrequency.value > 0 {
      ProductNonNegative(f.digitalHabits.usageFrequency.value as real, t.frequencyMultiplier);
    }
    SumValuesNonNegative(t.channelValues, f.consumption.shoppingChannels.GetOr([]));
    SumValuesNonNegative(t.categoryValues, f.consumption.favoriteCategories.GetOr([]));
    SumValuesNonNegative(t.interestValues, f.health.healthInterests.GetOr([]));
  }

  // ---------------------------------------------------------------- total

  /** Every breakdown entry is the rounded weighted raw value, and the total rounds
      the sum of the UNROUNDED weighted values, so it can differ from the
      breakdown's sum, though by at most 2. */
  lemma WeighShape(raw: Categories, w: Weights)
    ensures var v := Weigh(raw, w);
      && v.rawValues == raw
      && v.breakdown.demographics == Round(raw.demographics as real * w.demographics)
      && v.breakdown.digitalHabits == Round(raw.digitalHabits as real * w.digitalHabits)
      && v.breakdown.consumption == Round(raw.consumption as real * w.consumption)
      && v.breakdown.health == Round(raw.health as real * w.health)
      && v.breakdown.advanced == Round(raw.advanced as real * w.advanced)
      && -2 <= v.total - Sum(v.breakdown) <= 2
  {
  }

  /** A concrete case where the total is not the sum of the breakdown: weighted
      values 0.5 and 1.5 round to 1 and 2, their exact sum 2.0 rounds to 2. */
  lemma TotalDiffersFromBreakdownSum()
    ensures var f := EmptyForm.(personalInfo := PersonalInfo(None, None, Some("São Paulo")));
      var t := Tables(map[], map[], 1.0, map[], 0.0, map[], map[], map[], map[], map[]);
      var v := CalculateTotalValue(f, t, Weights(0.5, 1.0, 1.0, 1.0, 0.05));
      v.total == 2 && Sum(v.breakdown) == 3
  {
    var f := EmptyForm.(personalInfo := PersonalInfo(None, None, Some("São Paulo")));
    var t := Tables(map[], map[], 1.0, map[], 0.0, map[], map[], map[], map[], map[]);
    assert RawValues(f, t) == Categories(1, 0, 0, 0, 30);
    var v := Weigh(Categories(1, 0, 0, 0, 30), Weights(0.5, 1.0, 1.0, 1.0, 0.05));
    assert v.breakdown == Categories(1, 0, 0, 0, 2);
  }

  // ---------------------------------------------------------------- insights

  const MultipleNetworksInsight := "Sua presença em múltiplas redes sociais aumenta significativamente o valor dos seus dados"
  const ElectronicsInsight := "Seu interesse em eletrônicos é altamente valorizado por empresas de tecnologia"
  const PremiumIncomeInsight := "Sua faixa de renda coloca você em um segmento premium muito procurado"
  const TechnologyInsight := "Profissionais de tecnologia têm dados especialmente valiosos para o mercado B2B"

  /** `generateInsights(formData)` as written: `None` when `socialNetworks` or
      `favoriteCategories` is missing (reading `.length`/`.includes` of undefined
      throws). `INCOME_RANGES` is an array, so `INCOME_RANGES.ACIMA_8000` is
      `undefined` and the income test holds exactly when `incomeRange` is absent. */
  function GenerateInsights(f: FormData): (r: Option<seq<string>>)
    ensures r.Some? <==> f.digitalHabits.socialNetworks.Some? && f.consumption.favoriteCategories.Some?
    ensures r.Some? ==> |r.value| <= 4
  {
    if f.digitalHabits.socialNetworks.None? || f.consumption.favoriteCategories.None? then None
    else
      Some((if |f.digitalHabits.socialNetworks.value| > 3 then [MultipleNetworksInsight] else [])
         + (if "eletronicos" in f.consumption.favoriteCategories.value then [ElectronicsInsight] else [])
         + (if f.advanced.incomeRange.None? then [PremiumIncomeInsight] else [])
         + (if f.advanced.professionalArea == Some("tecnologia") then [TechnologyInsight] else []))
  }

  /** The income insight as evidently intended: the top bracket `'acima_8000'`. */
  function GenerateInsightsIntended(f: FormData): (r: Option<seq<string>>)
    ensures r.Some? <==> f.digitalHabits.socialNetworks.Some? && f.consumption.favoriteCategories.Some?
  {
    if f.digitalHabits.socialNetworks.None? || f.consumption.favoriteCategories.None? then None
    else
      Some((if |f.digitalHabits.socialNetworks.value| > 3 then [MultipleNetworksInsight] else [])
         + (if "eletronicos" in f.consumption.favoriteCategories.value then [ElectronicsInsight] else [])
         + (if f.advanced.incomeRange == Some("acima_8000") then [PremiumIncomeInsight] else [])
         + (if f.advanced.professionalArea == Some("tecnologia") then [TechnologyInsight] else []))
  }

  /** Each insight is emitted exactly when its condition holds, once, in the fixed order. */
  lemma InsightsMeaning(f: FormData)
    requires f.digitalHabits.socialNetworks.Some? && f.consumption.favoriteCategories.Some?
    ensures var r := GenerateInsightsIntended(f).value;
      && (MultipleNetworksInsight in r <==> |f.digitalHabits.socialNetworks.value| > 3)
      && (ElectronicsInsight in r <==> "eletronicos" in f.consumption.favoriteCategories.value)
      && (PremiumIncomeInsight in r <==> f.advanced.incomeRange == Some("acima_8000"))
      && (TechnologyInsight in r <==> f.advanced.professionalArea == Some("tecnologia"))
      && (forall i, j :: 0 <= i < j < |r| ==> r[i] != r[j])
  {
  }

  /** As written, each insight other than the income one is emitted exactly when
      its condition holds, the income one exactly when no income range is given,
      once each. */
  lemma InsightsMeaningAsWritten(f: FormData)
    requires f.digitalHabits.socialNetworks.Some? && f.consumption.favoriteCategories.Some?
    ensures var r := GenerateInsights(f).value;
      && (MultipleNetworksInsight in r <==> |f.digitalHabits.socialNetworks.value| > 3)
      && (ElectronicsInsight in r <==> "eletronicos" in f.consumption.favoriteCategories.value)
      && (PremiumIncomeInsight in r <==> f.advanced.incomeRange.None?)
      && (TechnologyInsight in r <==> f.advanced.professionalArea == Some("tecnologia"))
      && (forall i, j :: 0 <= i < j < |r| ==> r[i] != r[j])
  {
  }

  /** The program and the corrected version differ only in the income insight: they
      agree whenever an income range other than the top bracket is given, and
      otherwise one has the income insight exactly where the other lacks it. */
  lemma InsightsAsWrittenAgainstIntended(f: FormData)
    ensures f.advanced.incomeRange.Some? && f.advanced.incomeRange != Some("acima_8000") ==>
      GenerateInsights(f) == GenerateInsightsIntended(f)
    ensures GenerateInsights(f).Some? ==>
      forall s :: s != PremiumIncomeInsight ==> (s in GenerateInsights(f).value <==> s in GenerateInsightsIntended(f).value)
  {
  }

  /** As written, a profile with no income range at all gets the premium-income
      insight, and one in the top bracket does not. */
  lemma PremiumInsightAsWritten(f: FormData)
    requires f.digitalHabits.socialNetworks.Some? && f.consumption.favoriteCategories.Some?
    ensures PremiumIncomeInsight in GenerateInsights(f).value <==> f.advanced.incomeRange.None?
    ensures f.advanced.incomeRange == Some("acima_8000") ==> PremiumIncomeInsight !in GenerateInsights(f).value
  {
  }

  /** The end-to-end profile: two networks, electronics, the middle bracket, technology. */
  lemma InsightsExample()
    ensures var f := FormData(
        PersonalInfo(Some("30"), Some("masculino"), Some("São Paulo")),
        DigitalHabits(Some(["instagram", "tiktok"]), Some(8)),
        Consumption(Some(["ecommerce"]), Some(["eletronicos"])),
        Health(Some([])),
        Advanced(Some("3000_8000"), Some("tecnologia")));
      GenerateInsights(f) == Some([ElectronicsInsight, TechnologyInsight])
      && GenerateInsightsIntended(f) == Some([ElectronicsInsight, TechnologyInsight])
  {
    assert "eletronicos" in ["eletronicos"];
    assert [] + [ElectronicsInsight] + [] + [TechnologyInsight] == [ElectronicsInsight, TechnologyInsight];
  }
}
