/** Derivation rules of the nutrition calculator: body metrics, energy expenditure,
    personalised daily goals, percentages of goal, portion scaling, status buckets and the
    nutrient reference tables. Every quantity is a real number. */
module NutritionCalculator {
  import opened Text
  import opened Vectors

  /** Adult reference daily values (`daily_values`), in the unit NutrientUnit gives. */
  const DailyValues: NutrientVector := map[
    "calories" := 2000.0, "protein" := 50.0, "fat" := 65.0, "carbohydrates" := 300.0,
    "fiber" := 25.0, "sugar" := 50.0,
    "vitamin_a" := 900.0, "vitamin_c" := 90.0, "vitamin_d" := 20.0, "vitamin_e" := 15.0,
    "vitamin_k" := 120.0, "vitamin_b1" := 1.2, "vitamin_b2" := 1.3, "vitamin_b3" := 16.0,
    "vitamin_b5" := 5.0, "vitamin_b6" := 1.3, "vitamin_b12" := 2.4, "folate" := 400.0,
    "calcium" := 1000.0, "iron" := 8.0, "magnesium" := 400.0, "phosphorus" := 700.0,
    "potassium" := 3500.0, "sodium" := 2300.0, "zinc" := 11.0, "copper" := 0.9,
    "manganese" := 2.3, "selenium" := 55.0,
    "cholesterol" := 300.0, "saturated_fat" := 20.0]

  /** The nutrient categories in the order `get_nutrient_categories` lists them. */
  const NutrientCategories: seq<(string, seq<string>)> := [
    ("Macronutrients", ["calories", "protein", "fat", "carbohydrates", "fiber", "sugar"]),
    ("Vitamins", ["vitamin_a", "vitamin_c", "vitamin_d", "vitamin_e", "vitamin_k",
                  "vitamin_b1", "vitamin_b2", "vitamin_b3", "vitamin_b5",
                  "vitamin_b6", "vitamin_b12", "folate"]),
    ("Minerals", ["calcium", "iron", "magnesium", "phosphorus", "potassium",
                  "sodium", "zinc", "copper", "manganese", "selenium"]),
    ("Other", ["cholesterol", "saturated_fat"])]

  const Units: map<string, string> := map[
    "calories" := "kcal", "protein" := "g", "fat" := "g", "carbohydrates" := "g",
    "fiber" := "g", "sugar" := "g",
    "vitamin_a" := "mcg", "vitamin_c" := "mg", "vitamin_d" := "mcg", "vitamin_e" := "mg",
    "vitamin_k" := "mcg", "vitamin_b1" := "mg", "vitamin_b2" := "mg", "vitamin_b3" := "mg",
    "vitamin_b5" := "mg", "vitamin_b6" := "mg", "vitamin_b12" := "mcg", "folate" := "mcg",
    "calcium" := "mg", "iron" := "mg", "magnesium" := "mg", "phosphorus" := "mg",
    "potassium" := "mg", "sodium" := "mg", "zinc" := "mg", "copper" := "mg",
    "manganese" := "mg", "selenium" := "mcg",
    "cholesterol" := "mg", "saturated_fat" := "g"]

  const DisplayNames: map<string, string> := map[
    "vitamin_a" := "Vitamin A", "vitamin_c" := "Vitamin C", "vitamin_d" := "Vitamin D",
    "vitamin_e" := "Vitamin E", "vitamin_k" := "Vitamin K",
    "vitamin_b1" := "Thiamin (B1)", "vitamin_b2" := "Riboflavin (B2)",
    "vitamin_b3" := "Niacin (B3)", "vitamin_b5" := "Pantothenic Acid (B5)",
    "vitamin_b6" := "Vitamin B6", "vitamin_b12" := "Vitamin B12",
    "saturated_fat" := "Saturated Fat"]

  const ActivityMultipliers: map<string, real> := map[
    "sedentary" := 1.2, "light" := 1.375, "moderate" := 1.55,
    "very_active" := 1.725, "extremely_active" := 1.9]

  /** The four keys `calculate_daily_goals` derives from the calorie goal. */
  const MacroKeys: set<string> := {"calories", "protein", "fat", "carbohydrates"}

  // ---------------------------------------------------------------- body metrics

  /** Body-mass index. A zero height raises ZeroDivisionError in the source. */
  function Bmi(weightKg: real, heightCm: real): (r: real)
    requires heightCm != 0.0
    ensures r * (heightCm / 100.0) * (heightCm / 100.0) == weightKg
  {
    var heightM := heightCm / 100.0;
    weightKg / (heightM * heightM)
  }

  predicate IsMale(gender: string) { Lower(gender) == "male" }
  predicate IsFemale(gender: string) { Lower(gender) == "female" }

  /** Mifflin-St Jeor basal metabolic rate: any gender that does not lower-case to
      "male" takes the other branch. */
  function Bmr(weightKg: real, heightCm: real, age: int, gender: string): (r: real)
    ensures IsMale(gender) <==> r - (10.0 * weightKg + 6.25 * heightCm - 5.0 * age as real) == 5.0
    ensures !IsMale(gender) <==> r - (10.0 * weightKg + 6.25 * heightCm - 5.0 * age as real) == -161.0
  {
    if IsMale(gender) then 10.0 * weightKg + 6.25 * heightCm - 5.0 * age as real + 5.0
    else 10.0 * weightKg + 6.25 * heightCm - 5.0 * age as real - 161.0
  }

  /** The two branches differ by 166 kcal whatever the weight, height and age. */
  lemma BmrBranchGap(weightKg: real, heightCm: real, age: int, male: string, other: string)
    requires IsMale(male) && !IsMale(other)
    ensures Bmr(weightKg, heightCm, age, male) - Bmr(weightKg, heightCm, age, other) == 166.0
  {
  }

  /** `activity_multipliers.get(level, 1.55)`. */
  function ActivityMultiplier(level: string): (r: real)
    ensures r in ActivityMultipliers.Values
    ensures level in ActivityMultipliers ==> r == ActivityMultipliers[level]
    ensures level !in ActivityMultipliers ==> r == ActivityMultipliers["moderate"]
  {
    if level in ActivityMultipliers then ActivityMultipliers[level]
    else assert ActivityMultipliers["moderate"] == 1.55; 1.55
  }

  /** Total daily energy expenditure. */
  function Tdee(bmr: real, level: string): (r: real)
    ensures level in ActivityMultipliers ==> r == bmr * ActivityMultipliers[level]
    ensures level !in ActivityMultipliers ==> r == bmr * 1.55
  {
    bmr * ActivityMultiplier(level)
  }

  /** An unrecognised activity level behaves exactly like "moderate". */
  lemma TdeeUnknownLevelIsModerate(bmr: real, level: string)
    requires level !in ActivityMultipliers
    ensures Tdee(bmr, level) == Tdee(bmr, "moderate")
  {
  }

  /** The multiplier never lowers a positive BMR and never more than doubles it. */
  lemma TdeeBounds(bmr: real, level: string)
    requires bmr > 0.0
    ensures bmr < Tdee(bmr, level) < 2.0 * bmr
  {
    var m := ActivityMultiplier(level);
    assert 1.0 < m < 2.0;
  }

  // ---------------------------------------------------------------- daily goals

  /** Calorie goal: a 500 kcal deficit to lose, a surplus to gain, TDEE for any other goal. */
  function GoalCalories(tdee: real, goal: string): (r: real)
    ensures r == tdee - 500.0 || r == tdee || r == tdee + 500.0
    ensures r < tdee <==> goal == "lose"
    ensures r > tdee <==> goal == "gain"
  {
    if goal == "lose" then tdee - 500.0
    else if goal == "gain" then tdee + 500.0
    else tdee
  }

  /** `daily_values.copy()` updated with the calorie goal and the 15/30/55 split. */
  function WithMacroGoals(calories: real): (r: NutrientVector)
    ensures r.Keys == DailyValues.Keys
    ensures r["calories"] == calories
    ensures 4.0 * r["protein"] == 0.15 * calories
    ensures 9.0 * r["fat"] == 0.30 * calories
    ensures 4.0 * r["carbohydrates"] == 0.55 * calories
    ensures forall k :: k in r && k !in MacroKeys ==> r[k] == DailyValues[k]
  {
    DailyValues["calories" := calories]["protein" := calories * 0.15 / 4.0]
               ["fat" := calories * 0.30 / 9.0]["carbohydrates" := calories * 0.55 / 4.0]
  }

  /** The gender adjustment: iron 18 below 51 and 8 from 51 on, folate 400, for "female". */
  function WithGenderGoals(goals: NutrientVector, gender: string, age: int): (r: NutrientVector)
    requires goals.Keys == DailyValues.Keys
    ensures r.Keys == goals.Keys
    ensures IsFemale(gender) ==> r["iron"] == (if age < 51 then 18.0 else 8.0) && r["folate"] == 400.0
    ensures forall k :: k in r && (!IsFemale(gender) || (k != "iron" && k != "folate")) ==> r[k] == goals[k]
  {
    if IsFemale(gender) then goals["iron" := if age < 51 then 18.0 else 8.0]["folate" := 400.0]
    else goals
  }

  /** The age adjustment: vitamin D 20 and calcium 1200 above 70. */
  function WithAgeGoals(goals: NutrientVector, age: int): (r: NutrientVector)
    requires goals.Keys == DailyValues.Keys
    ensures r.Keys == goals.Keys
    ensures age > 70 ==> r["vitamin_d"] == 20.0 && r["calcium"] == 1200.0
    ensures forall k :: k in r && (age <= 70 || (k != "vitamin_d" && k != "calcium")) ==> r[k] == goals[k]
  {
    if age > 70 then goals["vitamin_d" := 20.0]["calcium" := 1200.0] else goals
  }

  /** Personalised goals: the reference table with the calorie goal and the macro split,
      then the gender and age adjustments (DailyGoalsAdjustments says what they leave). */
  function DailyGoals(tdee: real, goal: string, gender: string, age: int): (r: NutrientVector)
    ensures r.Keys == DailyValues.Keys
    ensures r["calories"] == GoalCalories(tdee, goal)
    ensures 4.0 * r["protein"] == 0.15 * r["calories"]
    ensures 9.0 * r["fat"] == 0.30 * r["calories"]
    ensures 4.0 * r["carbohydrates"] == 0.55 * r["calories"]
  {
    DailyValuesOverriddenEntries();
    WithAgeGoals(WithGenderGoals(WithMacroGoals(GoalCalories(tdee, goal)), gender, age), age)
  }

  /** Iron is 18 only for "female" under 51, calcium 1200 only above 70; since the table
      already holds folate 400 and vitamin D 20, every other non-macro goal is the
      reference value. */
  lemma DailyGoalsAdjustments(tdee: real, goal: string, gender: string, age: int)
    ensures var r := DailyGoals(tdee, goal, gender, age);
      && r["iron"] == (if IsFemale(gender) && age < 51 then 18.0 else 8.0)
      && r["calcium"] == (if age > 70 then 1200.0 else 1000.0)
      && forall k :: k in r && k !in MacroKeys && k != "iron" && k != "calcium" ==> r[k] == DailyValues[k]
  {
    DailyValuesOverriddenEntries();
    var macros := WithMacroGoals(GoalCalories(tdee, goal));
    var gendered := WithGenderGoals(macros, gender, age);
    var r := WithAgeGoals(gendered, age);
    assert r == DailyGoals(tdee, goal, gender, age);
    assert r["iron"] == gendered["iron"] && r["folate"] == gendered["folate"];
    assert gendered["calcium"] == macros["calcium"] && gendered["vitamin_d"] == macros["vitamin_d"];
  }

  /** The reference values of the entries the adjustments may overwrite. */
  lemma DailyValuesOverriddenEntries()
    ensures "iron" in DailyValues && DailyValues["iron"] == 8.0
    ensures "folate" in DailyValues && DailyValues["folate"] == 400.0
    ensures "vitamin_d" in DailyValues && DailyValues["vitamin_d"] == 20.0
    ensures "calcium" in DailyValues && DailyValues["calcium"] == 1000.0
    ensures MacroKeys <= DailyValues.Keys
    ensures "iron" !in MacroKeys && "folate" !in MacroKeys && "vitamin_d" !in MacroKeys && "calcium" !in MacroKeys
  {
  }

  /** Energy of a food from its macronutrients, at 4/9/4 kcal per gram. */
  function MealCalories(nutrients: NutrientVector): (r: real)
    ensures (Amount(nutrients, "protein") >= 0.0 && Amount(nutrients, "fat") >= 0.0 &&
             Amount(nutrients, "carbohydrates") >= 0.0) ==> r >= 0.0
    ensures "protein" !in nutrients && "fat" !in nutrients && "carbohydrates" !in nutrients ==> r == 0.0
  {
    Amount(nutrients, "protein") * 4.0 + Amount(nutrients, "fat") * 9.0
      + Amount(nutrients, "carbohydrates") * 4.0
  }

  /** The macro goals carry exactly the calorie goal: the three shares sum to one. */
  lemma MacroGoalsMatchCalories(tdee: real, goal: string, gender: string, age: int)
    ensures var g := DailyGoals(tdee, goal, gender, age); MealCalories(g) == g["calories"]
  {
  }

  // ---------------------------------------------------------------- percentages and portions

  function Min(a: real, b: real): real { if a <= b then a else b }

  /** Percentage of a goal achieved, capped at 200; a zero goal gives 0 instead of raising. */
  function NutrientPercentage(consumed: real, goal: real): (r: real)
    ensures r <= 200.0
    ensures goal == 0.0 ==> r == 0.0
    ensures goal != 0.0 ==> (r == 200.0 && consumed * 100.0 / goal >= 200.0) || r * goal == consumed * 100.0
  {
    if goal == 0.0 then 0.0 else Min(consumed / goal * 100.0, 200.0)
  }

  /** For a positive goal, eating more never lowers the percentage. */
  lemma PercentageMonotone(c1: real, c2: real, goal: real)
    requires goal > 0.0 && c1 <= c2
    ensures NutrientPercentage(c1, goal) <= NutrientPercentage(c2, goal)
  {
    assert c1 / goal <= c2 / goal by {
      assert c2 / goal - c1 / goal == (c2 - c1) / goal;
    }
  }

  /** Every amount multiplied by portion / reference. A zero reference portion raises
      ZeroDivisionError in the source. */
  function ScaleNutrients(nutrients: NutrientVector, portion: real, reference: real): (r: NutrientVector)
    requires reference != 0.0
    ensures r.Keys == nutrients.Keys
    ensures forall k :: k in r ==> r[k] * reference == nutrients[k] * portion
  {
    var factor := portion / reference;
    map k | k in nutrients :: nutrients[k] * factor
  }

  /** Scaling to the reference portion itself changes nothing. */
  lemma ScaleIdentity(nutrients: NutrientVector, portion: real)
    requires portion != 0.0
    ensures ScaleNutrients(nutrients, portion, portion) == nutrients
  {
    var r := ScaleNutrients(nutrients, portion, portion);
    forall k | k in r ensures r[k] == nutrients[k] {
      assert r[k] * portion == nutrients[k] * portion;
    }
  }

  lemma ScaleAt(nutrients: NutrientVector, portion: real, reference: real, k: string)
    requires reference != 0.0 && k in nutrients
    ensures ScaleNutrients(nutrients, portion, reference)[k] == nutrients[k] * (portion / reference)
  {
  }

  lemma QuotientProduct(p1: real, r1: real, p2: real, r2: real)
    requires r1 != 0.0 && r2 != 0.0
    ensures (p1 / r1) * (p2 / r2) == (p1 * p2) / (r1 * r2)
  {
    var f1, f2 := p1 / r1, p2 / r2;
    assert f1 * r1 == p1 && f2 * r2 == p2;
    assert (f1 * f2) * (r1 * r2) == (f1 * r1) * (f2 * r2);
  }

  /** Scaling twice is scaling once by the product of the two factors. */
  lemma ScaleCompose(nutrients: NutrientVector, p1: real, r1: real, p2: real, r2: real)
    requires r1 != 0.0 && r2 != 0.0
    ensures ScaleNutrients(ScaleNutrients(nutrients, p1, r1), p2, r2)
         == ScaleNutrients(nutrients, p1 * p2, r1 * r2)
  {
    var inner := ScaleNutrients(nutrients, p1, r1);
    var twice := ScaleNutrients(inner, p2, r2);
    var once := ScaleNutrients(nutrients, p1 * p2, r1 * r2);
    var f1, f2 := p1 / r1, p2 / r2;
    QuotientProduct(p1, r1, p2, r2);
    forall k | k in once ensures twice[k] == once[k] {
      ScaleAt(nutrients, p1, r1, k);
      ScaleAt(inner, p2, r2, k);
      ScaleAt(nutrients, p1 * p2, r1 * r2, k);
      ProductOfFactors(nutrients[k], f1, f2, inner[k], twice[k]);
    }
  }

  /** The energy of a scaled portion is the energy of the reference portion times the
      factor `f` = portion / reference. */
  lemma MealCaloriesScale(nutrients: NutrientVector, portion: real, reference: real, f: real)
    requires reference != 0.0 && f * reference == portion
    ensures MealCalories(ScaleNutrients(nutrients, portion, reference)) == MealCalories(nutrients) * f
  {
    var scaled := ScaleNutrients(nutrients, portion, reference);
    AmountScaled(nutrients, portion, reference, f, "protein");
    AmountScaled(nutrients, portion, reference, f, "fat");
    AmountScaled(nutrients, portion, reference, f, "carbohydrates");
    EnergyOfScaled(scaled, nutrients, f);
  }

  lemma AmountScaled(nutrients: NutrientVector, portion: real, reference: real, f: real, k: string)
    requires reference != 0.0 && f * reference == portion
    ensures Amount(ScaleNutrients(nutrients, portion, reference), k) == Amount(nutrients, k) * f
  {
    assert f == portion / reference;
  }

  /** The energy formula is linear: a vector whose macronutrients are those of `v` times `f`
      has `f` times the energy. */
  lemma EnergyOfScaled(scaled: NutrientVector, v: NutrientVector, f: real)
    requires Amount(scaled, "protein") == Amount(v, "protein") * f
    requires Amount(scaled, "fat") == Amount(v, "fat") * f
    requires Amount(scaled, "carbohydrates") == Amount(v, "carbohydrates") * f
    ensures MealCalories(scaled) == MealCalories(v) * f
  {
  }

  lemma ProductOfFactors(x: real, f1: real, f2: real, y: real, z: real)
    requires y == x * f1 && z == y * f2
    ensures z == x * (f1 * f2)
  {
  }

  // ---------------------------------------------------------------- status

  /** The six status buckets; `get_nutrient_status` returns (Label(), Emoji()). */
  datatype Status = VeryLow | Low | Moderate | Good | Excellent | High {
    function Label(): string {
      match this
      case VeryLow => "Very Low"
      case Low => "Low"
      case Moderate => "Moderate"
      case Good => "Good"
      case Excellent => "Excellent"
      case High => "High"
    }
    function Emoji(): string {
      match this
      case VeryLow => "\U{1F534}"
      case Low => "\U{1F7E0}"
      case Moderate => "\U{1F7E1}"
      case Good => "\U{1F7E2}"
      case Excellent => "\U{1F49A}"
      case High => "\U{1F535}"
    }
  }

  /** The half-open band of percentages each status stands for. */
  predicate InBand(s: Status, p: real) {
    match s
    case VeryLow => p < 25.0
    case Low => 25.0 <= p < 50.0
    case Moderate => 50.0 <= p < 75.0
    case Good => 75.0 <= p < 100.0
    case Excellent => 100.0 <= p < 150.0
    case High => 150.0 <= p
  }

  function NutrientStatus(percentage: real): (r: Status)
    ensures InBand(r, percentage)
  {
    if percentage < 25.0 then VeryLow
    else if percentage < 50.0 then Low
    else if percentage < 75.0 then Moderate
    else if percentage < 100.0 then Good
    else if percentage < 150.0 then Excellent
    else High
  }

  /** The bands do not overlap: the classified status is the only one whose band holds. */
  lemma StatusBandsPartition(p: real, s: Status)
    ensures InBand(s, p) <==> s == NutrientStatus(p)
  {
  }

  // ---------------------------------------------------------------- tables

  /** `get_nutrient_unit`: the unit, or "" for a key the table does not know. */
  function NutrientUnit(nutrient: string): (r: string)
    ensures nutrient in Units ==> r == Units[nutrient]
    ensures nutrient !in Units ==> r == ""
  {
    if nutrient in Units then Units[nutrient] else ""
  }

  /** `get_nutrient_display_name`: the table's name, else the key with underscores turned
      into spaces and title-cased. */
  function NutrientDisplayName(nutrient: string): (r: string)
    ensures nutrient in DisplayNames ==> r == DisplayNames[nutrient]
    ensures nutrient !in DisplayNames ==> |r| == |nutrient| && '_' !in r
  {
    if nutrient in DisplayNames then DisplayNames[nutrient]
    else Title(ReplaceChar(nutrient, '_', ' '))
  }

  /** Every nutrient with a reference value has a unit, and only those do. */
  lemma UnitsMatchDailyValues()
    ensures Units.Keys == DailyValues.Keys
  {
  }

  /** The keys a category lists. */
  function CategoryMembers(c: nat): set<string>
    requires c < |NutrientCategories|
  {
    set n | n in NutrientCategories[c].1
  }

  lemma CategoriesCoverDailyValues()
    ensures CategoryMembers(0) + CategoryMembers(1) + CategoryMembers(2) + CategoryMembers(3)
         == DailyValues.Keys
  {
  }

  lemma CategoriesDisjoint()
    ensures forall c, d :: 0 <= c < d < |NutrientCategories| ==> CategoryMembers(c) !! CategoryMembers(d)
  {
  }

  // ---------------------------------------------------------------- worked example

  /** A 30-year-old man of 70 kg and 175 cm: BMR 700 + 1093.75 - 150 + 5 = 1648.75 kcal,
      and 2555.5625 kcal when moderately active. */
  lemma EnergyExample()
    ensures Bmr(70.0, 175.0, 30, "male") == 1648.75
    ensures Tdee(1648.75, "moderate") == 2555.5625
  {
    var male := "male";
    assert forall i :: 0 <= i < |male| ==> Lower(male)[i] == male[i];
    assert Lower(male) == male;
  }

  /** Maintaining that weight, 15% of the calories as protein is 95.83359375 g; eating 40 g
      of protein is 41% of a 97.3 g goal, a Low status. */
  lemma ProteinExample()
    ensures DailyGoals(2555.5625, "maintain", "male", 30)["protein"] == 95.83359375
    ensures NutrientStatus(NutrientPercentage(40.0, 97.3)) == Low
  {
  }
}
