/** The dictionaries the stores keep, as records. A field is None when the dictionary has
    no such key (or, for the optional measurement fields, holds None). */
module Records {
  import opened Wrappers
  import opened Vectors

  /** A food-entry dictionary as the food-search page builds it and the stores keep it. */
  datatype FoodData = FoodData(
    fdcId: Option<int>,
    foodName: Option<string>,
    portionSize: Option<real>,
    mealType: Option<string>,
    portionUnit: Option<string>,
    nutrients: Option<NutrientVector>,
    originalServingSize: Option<real>,
    timestamp: Option<string>,
    entryId: Option<int>)

  /** A body-measurement dictionary. */
  datatype Measurement = Measurement(
    date: Option<string>,
    weightKg: Option<real>,
    heightCm: Option<real>,
    bodyFatPercent: Option<real>,
    muscleMassKg: Option<real>,
    waistCm: Option<real>,
    chestCm: Option<real>,
    armsCm: Option<real>,
    thighsCm: Option<real>,
    notes: Option<string>,
    timestamp: Option<string>)
}
