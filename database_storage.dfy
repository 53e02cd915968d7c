/** The database-backed store. The database is abstracted as the rows a query returns:
    food rows by date, and the measurement rows in the order the query sorts them. */
module DatabaseStorage {
  import opened Wrappers
  import opened Vectors
  import opened Records
  import SessionStorage

  /** A value decoded from a row's nutrient JSON. */
  datatype Json =
    | JNumber(n: real)
    | JBool(b: bool)
    | JString(s: string)
    | JNull
    | JComposite

  /** The value `isinstance(value, (int, float))` accepts, as a number; a JSON boolean is a
      Python `bool`, which is an `int` (1 or 0). */
  function Numeric(j: Json): (r: Option<real>)
    ensures j.JNumber? ==> r == Some(j.n)
    ensures j.JBool? ==> r == Some(if j.b then 1.0 else 0.0)
    ensures r.None? <==> (j.JString? || j.JNull? || j.JComposite?)
  {
    match j
    case JNumber(n) => Some(n)
    case JBool(b) => Some(if b then 1.0 else 0.0)
    case _ => None
  }

  /** A food row as `get_daily_entries` formats it. */
  datatype FoodRow = FoodRow(
    id: int,
    mealType: string,
    foodName: string,
    fdcId: int,
    portionSize: real,
    portionUnit: string,
    nutrients: map<string, Json>)

  /** The food table: the rows of each date, in query order. */
  type FoodTable = map<string, seq<FoodRow>>

  /** `get_daily_entries`: the date's rows, none for a date without rows. */
  function GetDailyEntries(table: FoodTable, date: string): (r: seq<FoodRow>)
    ensures date !in table ==> r == []
    ensures date in table ==> r == table[date]
  {
    if date in table then table[date] else []
  }

  /** The row `add_food_entry` stores for a food dictionary (the id is the database's):
      every missing field takes its default. */
  function NewFoodRow(food: FoodData, id: int): (r: FoodRow)
    ensures r.mealType == food.mealType.GetOr("meal") && r.foodName == food.foodName.GetOr("")
    ensures r.fdcId == food.fdcId.GetOr(0) && r.portionSize == food.portionSize.GetOr(0.0)
    ensures r.portionUnit == food.portionUnit.GetOr("g")
    ensures food.nutrients.None? ==> r.nutrients == map[]
    ensures forall k :: k in r.nutrients <==> k in food.nutrients.GetOr(map[])
    ensures forall k :: k in r.nutrients ==> Numeric(r.nutrients[k]) == Some(food.nutrients.GetOr(map[])[k])
  {
    var nutrients := food.nutrients.GetOr(map[]);
    FoodRow(id, food.mealType.GetOr("meal"), food.foodName.GetOr(""), food.fdcId.GetOr(0),
            food.portionSize.GetOr(0.0), food.portionUnit.GetOr("g"),
            map k | k in nutrients :: JNumber(nutrients[k]))
  }

  /** `add_food_entry`: the new row is added to its date; other dates are untouched. */
  function AddFoodEntry(table: FoodTable, date: string, food: FoodData, id: int): (r: FoodTable)
    ensures GetDailyEntries(r, date) == GetDailyEntries(table, date) + [NewFoodRow(food, id)]
    ensures forall d :: d != date ==> GetDailyEntries(r, d) == GetDailyEntries(table, d)
  {
    table[date := GetDailyEntries(table, date) + [NewFoodRow(food, id)]]
  }

  /** The numeric items of a row's nutrients: the ones `get_daily_totals` adds up. */
  function NumericPart(nutrients: map<string, Json>): (v: NutrientVector)
    ensures v.Keys <= nutrients.Keys
    ensures forall k :: k in nutrients ==> (k in v <==> Numeric(nutrients[k]).Some?)
    ensures forall k :: k in v ==> Some(v[k]) == Numeric(nutrients[k])
  {
    map k | k in nutrients && Numeric(nutrients[k]).Some? :: Numeric(nutrients[k]).value
  }

  /** The numeric nutrients of each row. */
  function RowVectors(rows: seq<FoodRow>): seq<NutrientVector>
  {
    seq(|rows|, i requires 0 <= i < |rows| => NumericPart(rows[i].nutrients))
  }

  /** A row stored from a food dictionary contributes exactly that food's nutrients, so the
      two stores total the same day alike. */
  lemma NewRowsTotalLikeSession(foods: seq<FoodData>, ids: seq<int>)
    requires |ids| == |foods|
    ensures Totals(RowVectors(seq(|foods|, i requires 0 <= i < |foods| => NewFoodRow(foods[i], ids[i]))))
      == Totals(SessionStorage.EntryNutrients(foods))
  {
    var rows := seq(|foods|, i requires 0 <= i < |foods| => NewFoodRow(foods[i], ids[i]));
    assert RowVectors(rows) == SessionStorage.EntryNutrients(foods) by {
      forall i | 0 <= i < |foods|
        ensures RowVectors(rows)[i] == SessionStorage.EntryNutrients(foods)[i]
      {
        var v := RowVectors(rows)[i];
        var w := SessionStorage.EntryNutrients(foods)[i];
        assert v.Keys == w.Keys;
      }
    }
  }

  /** The inner loop of `get_daily_totals`: the numeric items of one row added to the
      running totals. */
  method AddNumericInto(totals: NutrientVector, nutrients: map<string, Json>) returns (t: NutrientVector)
    ensures t == AddVector(totals, NumericPart(nutrients))
  {
    var remaining := nutrients.Keys;
    t := totals;
    assert nutrients.Keys - remaining == {};
    RestrictNone(NumericPart(nutrients), totals);
    while remaining != {}
      invariant remaining <= nutrients.Keys
      invariant t == AddVector(totals, Restrict(NumericPart(nutrients), nutrients.Keys - remaining))
      decreases |remaining|
    {
      var k :| k in remaining;
      var value := Numeric(nutrients[k]);
      NumericStep(totals, nutrients, remaining, k);
      if value.Some? {
        t := t[k := Amount(t, k) + value.value];
      }
      remaining := remaining - {k};
    }
    NumericDone(totals, nutrients, remaining);
  }

  /** One pass of the inner loop: a numeric value is added to its key's running total and
      any other value leaves the totals as they were. */
  lemma NumericStep(totals: NutrientVector, nutrients: map<string, Json>, remaining: set<string>, k: string)
    requires remaining <= nutrients.Keys && k in remaining
    ensures var numeric := NumericPart(nutrients);
      var before := AddVector(totals, Restrict(numeric, nutrients.Keys - remaining));
      var value := Numeric(nutrients[k]);
      AddVector(totals, Restrict(numeric, nutrients.Keys - (remaining - {k})))
        == if value.Some? then before[k := Amount(before, k) + value.value] else before
  {
    var numeric := NumericPart(nutrients);
    var done := nutrients.Keys - remaining;
    assert nutrients.Keys - (remaining - {k}) == done + {k};
    if Numeric(nutrients[k]).Some? {
      AddOneKey(totals, numeric, done, k);
    } else {
      RestrictSkip(numeric, done, k);
    }
  }

  /** Once every key is visited the totals hold all the numeric items. */
  lemma NumericDone(totals: NutrientVector, nutrients: map<string, Json>, remaining: set<string>)
    requires remaining == {}
    ensures AddVector(totals, Restrict(NumericPart(nutrients), nutrients.Keys - remaining))
         == AddVector(totals, NumericPart(nutrients))
  {
    assert nutrients.Keys - remaining == nutrients.Keys;
    RestrictAll(NumericPart(nutrients), nutrients.Keys);
  }

  /** `get_daily_totals`: the key-wise sum of the numeric nutrient values of the date's
      rows; every other value is skipped. */
  method GetDailyTotals(table: FoodTable, date: string) returns (totals: NutrientVector)
    ensures totals == Totals(RowVectors(GetDailyEntries(table, date)))
  {
    var entries := GetDailyEntries(table, date);
    ghost var vs := RowVectors(entries);
    totals := map[];
    var i := 0;
    while i < |entries|
      invariant 0 <= i <= |entries|
      invariant totals == Totals(vs[..i])
    {
      var t := AddNumericInto(totals, entries[i].nutrients);
      assert vs[i] == NumericPart(entries[i].nutrients);
      SessionStorage.PrefixSnoc(vs, i);
      TotalsSnoc(vs[..i], vs[i]);
      totals := t;
      i := i + 1;
    }
    assert vs[..i] == vs;
  }

  /** The nutrients the summary reports separately. */
  const MacroKeys: set<string> := {"calories", "protein", "carbohydrates", "fat"}

  /** The summary dictionary of `get_nutrition_summary`. */
  datatype DbNutritionSummary = DbNutritionSummary(
    totalDays: int,
    daysWithEntries: int,
    avgCalories: real,
    avgProtein: real,
    avgCarbohydrates: real,
    avgFat: real,
    nutrients: NutrientVector)

  /** The non-macro nutrients summed over the days. */
  function OtherSums(ds: seq<NutrientVector>): (r: NutrientVector)
    ensures r.Keys == KeysOf(ds) - MacroKeys
  {
    map k | k in KeysOf(ds) - MacroKeys :: ColumnSum(ds, k)
  }

  /** Every value of `acc` divided by `n`. */
  function DivideAll(acc: NutrientVector, n: real): (r: NutrientVector)
    requires n != 0.0
    ensures r.Keys == acc.Keys
    ensures forall k :: k in r ==> r[k] * n == acc[k]
  {
    map k | k in acc :: acc[k] / n
  }

  /** The summary of a window of `days` days whose totals are `ds`. */
  function DbSummaryOf(days: int, ds: seq<NutrientVector>): (s: DbNutritionSummary)
    ensures s.totalDays == days
    ensures s.daysWithEntries == CountNonEmpty(ds)
    ensures s.nutrients.Keys == KeysOf(ds) - MacroKeys
  {
    var n := CountNonEmpty(ds);
    if n == 0 then DbNutritionSummary(days, 0, 0.0, 0.0, 0.0, 0.0, OtherSums(ds))
    else
      var d := n as real;
      DbNutritionSummary(days, n,
        ColumnSum(ds, "calories") / d, ColumnSum(ds, "protein") / d,
        ColumnSum(ds, "carbohydrates") / d, ColumnSum(ds, "fat") / d,
        DivideAll(OtherSums(ds), d))
  }

  /** With no tracked day every average is zero and no nutrient is reported. */
  lemma DbSummaryNoData(days: int, ds: seq<NutrientVector>)
    requires CountNonEmpty(ds) == 0
    ensures DbSummaryOf(days, ds) == DbNutritionSummary(days, 0, 0.0, 0.0, 0.0, 0.0, map[])
  {
    NoTrackedDayNoKeys(ds);
  }

  lemma {:induction false} NoTrackedDayNoKeys(ds: seq<NutrientVector>)
    requires CountNonEmpty(ds) == 0
    ensures KeysOf(ds) == {}
  {
    if ds != [] {
      NoTrackedDayNoKeys(ds[..|ds| - 1]);
    }
  }

  /** Every average, of a macro or of another nutrient, is its window total divided by the
      number of tracked days, whichever days the nutrient appeared on. */
  lemma DbAveragesOverTrackedDays(days: int, ds: seq<NutrientVector>, k: string)
    requires CountNonEmpty(ds) > 0
    ensures var s := DbSummaryOf(days, ds);
      var d := CountNonEmpty(ds) as real;
      s.avgCalories == ColumnSum(ds, "calories") / d && s.avgProtein == ColumnSum(ds, "protein") / d &&
      s.avgCarbohydrates == ColumnSum(ds, "carbohydrates") / d && s.avgFat == ColumnSum(ds, "fat") / d &&
      (k in s.nutrients ==> k !in MacroKeys && s.nutrients[k] == ColumnSum(ds, k) / d)
  {
  }

  /** The database store's figures for the two days of `SessionStorage.TwoDays`. */
  lemma TwoDaysColumns()
    ensures var ds := SessionStorage.TwoDays;
      KeysOf(ds) == {"calories", "iron"} && CountNonEmpty(ds) == 2 &&
      ColumnSum(ds, "iron") == 4.0 && ColumnSum(ds, "calories") == 300.0
  {
    var ds := SessionStorage.TwoDays;
    SessionStorage.TwoDaysAmounts();
    assert ds[..1] == [ds[0]] && ds[..1][..0] == [];
    assert ColumnSum(ds[..1], "iron") == 4.0 && ColumnSum(ds[..1], "calories") == 100.0;
  }

  /** The two stores average the same week differently: with iron on one of two tracked
      days out of seven, the database store reports seven days and half the iron. */
  lemma StoresAverageDifferently()
    ensures
      var ds := SessionStorage.TwoDays;
      var db := DbSummaryOf(7, ds);
      var session := SessionStorage.SummaryOf(["d1", "d2"], ds);
      db.totalDays == 7 && session.totalDays == 2 &&
      db.nutrients == map["iron" := 2.0] && session.avgNutrients["iron"] == 4.0 &&
      db.avgCalories == 150.0 && session.avgNutrients["calories"] == 150.0
  {
    TwoDaysColumns();
    SessionStorage.AverageCountsOnlyDaysWithNutrient();
    assert DbSummaryOf(7, SessionStorage.TwoDays).nutrients == map["iron" := 4.0 / 2.0];
  }

  /** The totals of each date of the window. */
  function DayTotals(table: FoodTable, window: seq<string>): (ds: seq<NutrientVector>)
    ensures |ds| == |window|
  {
    seq(|window|, i requires 0 <= i < |window| => Totals(RowVectors(GetDailyEntries(table, window[i]))))
  }

  /** One more day in the summary loop. */
  lemma DayStep(ds: seq<NutrientVector>, i: int)
    requires 0 <= i < |ds|
    ensures ds[..i + 1] == ds[..i] + [ds[i]]
    ensures CountNonEmpty(ds[..i + 1]) == CountNonEmpty(ds[..i]) + (if ds[i] != map[] then 1 else 0)
    ensures forall k :: ColumnSum(ds[..i + 1], k) == ColumnSum(ds[..i], k) + Amount(ds[i], k)
  {
    SessionStorage.PrefixSnoc(ds, i);
    assert ds[..i + 1][..i] == ds[..i];
  }

  /** Adding one day's non-macro items to the running sums. */
  lemma OtherSumsSnoc(ds: seq<NutrientVector>, day: NutrientVector)
    ensures OtherSums(ds + [day]) == AddVector(OtherSums(ds), Others(day))
  {
    var w := ds + [day];
    assert w[..|w| - 1] == ds;
    assert KeysOf(w) == KeysOf(ds) + day.Keys;
    forall k | k in KeysOf(w) - MacroKeys
      ensures OtherSums(w)[k] == AddVector(OtherSums(ds), Others(day))[k]
    {
      ColumnSumOutsideKeys(ds, k);
    }
  }

  /** A day without totals changes no sum. */
  lemma OtherSumsEmptyDay(ds: seq<NutrientVector>)
    ensures OtherSums(ds + [map[]]) == OtherSums(ds)
  {
    OtherSumsSnoc(ds, map[]);
    assert Restrict(map[], {}) == map[];
    assert AddVector(OtherSums(ds), map[]) == OtherSums(ds);
  }

  /** The inner loop of `get_nutrition_summary`: every non-macro nutrient of one day added
      to its running sum, the sum created at zero when the nutrient is new. */
  method AccumulateOthers(acc: NutrientVector, ghost ds: seq<NutrientVector>, day: NutrientVector)
    returns (r: NutrientVector)
    requires acc == OtherSums(ds)
    ensures r == OtherSums(ds + [day])
  {
    var remaining := day.Keys;
    r := acc;
    assert day.Keys - remaining == {};
    RestrictNone(Others(day), acc);
    while remaining != {}
      invariant remaining <= day.Keys
      invariant r == AddVector(acc, Restrict(Others(day), day.Keys - remaining))
      decreases |remaining|
    {
      var k :| k in remaining;
      OtherStep(acc, day, remaining, k);
      if k !in MacroKeys {
        r := r[k := Amount(r, k) + day[k]];
      }
      remaining := remaining - {k};
    }
    OthersDone(acc, day, remaining);
    OtherSumsSnoc(ds, day);
  }

  /** The non-macro items of one day. */
  function Others(day: NutrientVector): NutrientVector {
    Restrict(day, day.Keys - MacroKeys)
  }

  /** One pass of the inner loop: a non-macro item is added to its running sum, a macro
      item is skipped. */
  lemma OtherStep(acc: NutrientVector, day: NutrientVector, remaining: set<string>, k: string)
    requires remaining <= day.Keys && k in remaining
    ensures var before := AddVector(acc, Restrict(Others(day), day.Keys - remaining));
      AddVector(acc, Restrict(Others(day), day.Keys - (remaining - {k})))
        == if k !in MacroKeys then before[k := Amount(before, k) + day[k]] else before
  {
    var done := day.Keys - remaining;
    assert day.Keys - (remaining - {k}) == done + {k};
    if k !in MacroKeys {
      assert Others(day)[k] == day[k];
      AddOneKey(acc, Others(day), done, k);
    } else {
      RestrictSkip(Others(day), done, k);
    }
  }

  /** Once every key is visited the sums hold all the non-macro items. */
  lemma OthersDone(acc: NutrientVector, day: NutrientVector, remaining: set<string>)
    requires remaining == {}
    ensures AddVector(acc, Restrict(Others(day), day.Keys - remaining)) == AddVector(acc, Others(day))
  {
    assert day.Keys - remaining == day.Keys;
    RestrictAll(Others(day), day.Keys);
  }

  /** The closing loop: every accumulated sum divided in place by the tracked days. */
  method DivideSums(acc: NutrientVector, n: real) returns (r: NutrientVector)
    requires n != 0.0
    ensures r == DivideAll(acc, n)
  {
    r := acc;
    var remaining := acc.Keys;
    while remaining != {}
      invariant remaining <= acc.Keys && r.Keys == acc.Keys
      invariant forall k :: k in r ==> r[k] == if k in remaining then acc[k] else acc[k] / n
      decreases |remaining|
    {
      var k :| k in remaining;
      r := r[k := r[k] / n];
      remaining := remaining - {k};
    }
  }

  /** `get_nutrition_summary` over the `days` dates of the window, oldest first. */
  method GetNutritionSummary(table: FoodTable, days: int, window: seq<string>) returns (summary: DbNutritionSummary)
    requires |window| == if days > 0 then days else 0
    ensures summary == DbSummaryOf(days, DayTotals(table, window))
  {
    ghost var ds := DayTotals(table, window);
    var totalCalories, totalProtein, totalCarbs, totalFat := 0.0, 0.0, 0.0, 0.0;
    var daysWithData := 0;
    var others: NutrientVector := map[];
    var i := 0;
    while i < |window|
      invariant 0 <= i <= |window|
      invariant daysWithData == CountNonEmpty(ds[..i])
      invariant totalCalories == ColumnSum(ds[..i], "calories") && totalProtein == ColumnSum(ds[..i], "protein")
      invariant totalCarbs == ColumnSum(ds[..i], "carbohydrates") && totalFat == ColumnSum(ds[..i], "fat")
      invariant others == OtherSums(ds[..i])
    {
      var dailyTotals := GetDailyTotals(table, window[i]);
      assert dailyTotals == ds[i];
      DayStep(ds, i);
      if dailyTotals != map[] {
        daysWithData := daysWithData + 1;
        totalCalories := totalCalories + Amount(dailyTotals, "calories");
        totalProtein := totalProtein + Amount(dailyTotals, "protein");
        totalCarbs := totalCarbs + Amount(dailyTotals, "carbohydrates");
        totalFat := totalFat + Amount(dailyTotals, "fat");
        others := AccumulateOthers(others, ds[..i], dailyTotals);
      } else {
        OtherSumsEmptyDay(ds[..i]);
      }
      i := i + 1;
    }
    assert ds[..i] == ds;
    summary := DbNutritionSummary(days, 0, 0.0, 0.0, 0.0, 0.0, others);
    if daysWithData > 0 {
      var d := daysWithData as real;
      var averaged := DivideSums(others, d);
      summary := summary.(daysWithEntries := daysWithData,
        avgCalories := totalCalories / d, avgProtein := totalProtein / d,
        avgCarbohydrates := totalCarbs / d, avgFat := totalFat / d,
        nutrients := averaged);
    }
  }

  /** The first step of `add_measurement`: the date is popped from the caller's record
      (today's date when it has none); the remainder is passed on as keyword arguments. */
  function PopDate(m: Measurement, today: string): (r: (string, Measurement))
    ensures r.0 == m.date.GetOr(today)
    ensures r.1.date.None?
    ensures r.1.(date := m.date) == m
  {
    (m.date.GetOr(today), m.(date := None))
  }

  /** The measurement row as `get_measurements_history` formats it: date, weight, body fat,
      muscle mass and the four girths; height, notes and timestamp are not columns. */
  function FormatMeasurement(m: Measurement): (r: Measurement)
    ensures r.heightCm.None? && r.notes.None? && r.timestamp.None?
    ensures r.(heightCm := m.heightCm, notes := m.notes, timestamp := m.timestamp) == m
  {
    m.(heightCm := None, notes := None, timestamp := None)
  }

  /** The keys of a measurement record the measurements table has no column for, in the
      record's field order: height, notes and timestamp. */
  function NonColumnKeys(m: Measurement): (keys: seq<string>)
    ensures "height_cm" in keys <==> m.heightCm.Some?
    ensures "notes" in keys <==> m.notes.Some?
    ensures "timestamp" in keys <==> m.timestamp.Some?
    ensures forall k :: k in keys ==> k == "height_cm" || k == "notes" || k == "timestamp"
    ensures m.heightCm.Some? ==> keys[0] == "height_cm"
  {
    (if m.heightCm.Some? then ["height_cm"] else [])
      + (if m.notes.Some? then ["notes"] else [])
      + (if m.timestamp.Some? then ["timestamp"] else [])
  }

  /** `add_measurement` as written: the popped record is passed as keyword arguments to the
      table's constructor, which raises TypeError at the first key that is not a column;
      otherwise the row holds the popped date and the record's columns. */
  function AddMeasurement(m: Measurement, today: string): (r: Result<Measurement>)
    ensures r.Err? <==> (m.heightCm.Some? || m.notes.Some? || m.timestamp.Some?)
    ensures r.Err? && m.heightCm.Some? ==> r.error == TypeError("height_cm")
    ensures r.Err? ==> r.error.TypeError? && r.error.key in NonColumnKeys(m)
    ensures r.Ok? ==> r.value == m.(date := Some(m.date.GetOr(today)))
  {
    var (date, rest) := PopDate(m, today);
    var extra := NonColumnKeys(rest);
    if extra != [] then Err(TypeError(extra[0])) else Ok(rest.(date := Some(date)))
  }

  /** Corrected `add_measurement`: only the keys the table has columns for are passed on,
      so the add never raises. */
  function AddMeasurementColumns(m: Measurement, today: string): (r: Measurement)
    ensures r.date == Some(m.date.GetOr(today))
    ensures NonColumnKeys(r) == []
    ensures r.(date := m.date, heightCm := m.heightCm, notes := m.notes, timestamp := m.timestamp) == m
    ensures AddMeasurement(m, today).Ok? ==> AddMeasurement(m, today).value == r
  {
    var (date, rest) := PopDate(m, today);
    FormatMeasurement(rest.(date := Some(date)))
  }

  /** With the corrected add, a record is stored and read back with the popped date and
      every column's value, and only height, notes and timestamp lost. */
  lemma StoredMeasurementReadsBack(m: Measurement, today: string, older: seq<Measurement>)
    ensures var row := AddMeasurementColumns(m, today);
      var back := GetLatestMeasurement([row] + older);
      back == Some(row) &&
      back.value.date == Some(m.date.GetOr(today)) &&
      back.value.weightKg == m.weightKg && back.value.bodyFatPercent == m.bodyFatPercent &&
      back.value.muscleMassKg == m.muscleMassKg && back.value.waistCm == m.waistCm &&
      back.value.chestCm == m.chestCm && back.value.armsCm == m.armsCm && back.value.thighsCm == m.thighsCm
  {
  }

  /** `get_latest_measurement`: the first row of the history, which the query sorts
      newest first; None for an empty history. */
  function GetLatestMeasurement(history: seq<Measurement>): (r: Option<Measurement>)
    ensures r.None? <==> history == []
    ensures r.Some? ==> r.value == FormatMeasurement(history[0])
  {
    if history != [] then Some(FormatMeasurement(history[0])) else None
  }
}
