# Nutrition tracker core in Dafny

This project models the calculation and aggregation core of a personal nutrition tracker.
The tracker is a Streamlit application. Users log foods from the FoodData Central catalog,
track daily nutrients against personalised goals, and record body measurements.

The model covers six parts of the tracker:

- **NutritionCalculator** (`nutrition_calculator.dfy`) holds the derivation rules:
  - BMI and Mifflin–St Jeor BMR;
  - TDEE through the activity-multiplier table;
  - the calorie goal and the 15/30/55 macro split;
  - the reference daily values, with their gender and age overrides;
  - the capped percentage of goal, portion scaling and the six-bucket status;
  - the unit, display-name and category tables.
- **SessionStorage** (`data_storage.dfy`) is the in-memory store, modelled as the class `DataStorage`:
  - a date-to-entries dictionary, with its key order;
  - the food cache;
  - the measurement history, capped at 100;
  - the loops that compute daily totals and the N-day summary.
- **DatabaseStorage** (`database_storage.dfy`) is the database-backed store, with the database abstracted as query results:
  - the defaults of a stored food row;
  - numeric-only daily totals;
  - its own N-day summary, which counts days and averages differently from the session store;
  - the measurement add, which raises TypeError for any record with a height, notes or a timestamp, since the table has no such columns;
  - the read-back of stored measurement rows.
- **UsdaApi** (`usda_api.dfy`) covers three pieces:
  - the FoodData Central renaming table and its injectivity;
  - `normalize_nutrients`;
  - the query guard of `search_foods`.
- **Progress** (`progress.dfy`) models the progress page:
  - the category lookup;
  - the goal-analysis pipeline: achievements, sort, low/good/high partition and recommendation grouping;
  - the progress-bar clamp;
  - the weekly figures.
- **Measurements** (`measurements.dfy`) models the measurements page:
  - the current-statistics fallback;
  - the BMI buckets;
  - the body-composition split;
  - the record the entry form builds.

Shared pieces:

- `vectors.dfy` holds nutrient dictionaries as `map<string, real>` and their key-wise sums.
- `records.dfy` holds the food and measurement dictionaries as records. A missing key is `None`.
- `text.dfy` holds the Python string methods the core relies on.
- `wrappers.dfy` holds `Option` and `Result`.

All quantities are real numbers. Python exceptions that the code can reach become
`Result.Err`. Divisions by zero become preconditions.

The clock and "today" are not modelled. Each caller passes its window of date keys, its date and its timestamp as parameters.

## Model

| member | source | states |
|---|---|---|
| NutritionCalculator.Bmi | utils/nutrition_calculator.py:47-50 | BMI times the squared height in metres is the weight |
| NutritionCalculator.Bmr | utils/nutrition_calculator.py:52-59 | a gender that lower-cases to "male" gets 10·weight + 6.25·height − 5·age + 5; every other gender gets the same sum − 161 |
| NutritionCalculator.BmrBranchGap | utils/nutrition_calculator.py:52-59 | for any weight, height and age, the "male" BMR exceeds the BMR of any other gender string by exactly 166 |
| NutritionCalculator.ActivityMultiplier | utils/nutrition_calculator.py:61-71 | a level in the table gets its own value (sedentary 1.2, light 1.375, moderate 1.55, very_active 1.725, extremely_active 1.9); an unknown level gets the "moderate" value 1.55 |
| NutritionCalculator.Tdee | utils/nutrition_calculator.py:61-72 | BMR times the level's table value, or BMR times 1.55 for an unknown level |
| NutritionCalculator.TdeeUnknownLevelIsModerate | utils/nutrition_calculator.py:71-72 | TDEE of an unrecognised activity level equals TDEE at "moderate" |
| NutritionCalculator.TdeeBounds | utils/nutrition_calculator.py:63-72 | for a positive BMR, BMR < TDEE < 2·BMR at every level |
| NutritionCalculator.GoalCalories | utils/nutrition_calculator.py:77-82 | TDEE − 500, TDEE or TDEE + 500; below TDEE exactly for "lose" and above it exactly for "gain" |
| NutritionCalculator.WithMacroGoals | utils/nutrition_calculator.py:85-95 | the goals have exactly the reference key set; calories is the calorie goal; protein, fat and carbohydrates carry 15%, 30% and 55% of it at 4/9/4 kcal per gram; every other key keeps its reference value |
| NutritionCalculator.WithGenderGoals | utils/nutrition_calculator.py:97-100 | for a gender that lower-cases to "female", iron is 18 below age 51 and 8 from 51, and folate is 400; nothing else changes |
| NutritionCalculator.WithAgeGoals | utils/nutrition_calculator.py:102-104 | above age 70, vitamin D is 20 and calcium 1200; nothing else changes |
| NutritionCalculator.DailyGoals | utils/nutrition_calculator.py:74-106 | the key set is exactly the reference table's; calories is TDEE−500 for "lose", TDEE+500 for "gain", else TDEE; the macro shares follow the 15/30/55 split |
| NutritionCalculator.DailyGoalsAdjustments | utils/nutrition_calculator.py:89-104 | iron is 18 exactly for "female" under 51 (else 8); calcium is 1200 exactly above 70 (else 1000); every other non-macro goal equals its reference value |
| NutritionCalculator.DailyValuesOverriddenEntries | utils/nutrition_calculator.py:7-45 | the reference table holds iron 8, folate 400, vitamin D 20, calcium 1000 and all four macro keys |
| NutritionCalculator.MacroGoalsMatchCalories | utils/nutrition_calculator.py:85-87 | 4·protein + 9·fat + 4·carbohydrates of the goals (the meal-calorie formula) equals the calorie goal exactly |
| NutritionCalculator.MealCalories | utils/nutrition_calculator.py:135-141 | 0 when the dictionary has none of protein, fat and carbohydrates; never negative when their amounts are not |
| NutritionCalculator.MealCaloriesScale | utils/nutrition_calculator.py:114-141 | the meal calories of a scaled portion are those of the reference portion times f, for f·reference = portion |
| NutritionCalculator.NutrientPercentage | utils/nutrition_calculator.py:108-112 | the result is 0 for a zero goal; otherwise it is consumed·100/goal, or 200 when that reaches 200; it never exceeds 200 |
| NutritionCalculator.PercentageMonotone | utils/nutrition_calculator.py:108-112 | for a positive goal, a larger consumed amount never gives a smaller percentage |
| NutritionCalculator.ScaleNutrients | utils/nutrition_calculator.py:114-118 | the key set is unchanged and each amount is multiplied by portion/reference |
| NutritionCalculator.ScaleIdentity | utils/nutrition_calculator.py:114-118 | scaling to the reference portion returns the nutrients unchanged |
| NutritionCalculator.ScaleCompose | utils/nutrition_calculator.py:114-118 | scaling twice equals scaling once by the product of the two ratios |
| NutritionCalculator.NutrientStatus | utils/nutrition_calculator.py:120-133 | the status returned is the one whose band (<25, <50, <75, <100, <150, else) holds the percentage |
| NutritionCalculator.StatusBandsPartition | utils/nutrition_calculator.py:120-133 | a status's band holds the percentage exactly when it is the classified status, so exactly one band applies |
| NutritionCalculator.NutrientUnit | utils/nutrition_calculator.py:182-217 | the table's unit, or "" for an unknown key |
| NutritionCalculator.NutrientDisplayName | utils/nutrition_calculator.py:163-180 | the table's name; otherwise a string of the key's length with no underscore left |
| NutritionCalculator.UnitsMatchDailyValues | utils/nutrition_calculator.py:182-217 | the unit table and the reference table have the same key set |
| NutritionCalculator.CategoriesCoverDailyValues | utils/nutrition_calculator.py:143-161 | the four categories together list exactly the reference table's keys |
| NutritionCalculator.CategoriesDisjoint | utils/nutrition_calculator.py:143-161 | no nutrient is listed in two categories |
| NutritionCalculator.EnergyExample | utils/nutrition_calculator.py:52-72 | a 30-year-old man of 70 kg and 175 cm has BMR 1648.75 and moderate TDEE 2555.5625 |
| NutritionCalculator.ProteinExample | utils/nutrition_calculator.py:74-133 | maintaining that TDEE gives a 95.83359375 g protein goal; 40 g against a 97.3 g goal is "Low" |
| Text.Lower | utils/nutrition_calculator.py:54 | `lower()` keeps the length and lower-cases each ASCII letter |
| Text.Strip | utils/usda_api.py:14 | `strip()` leaves no whitespace at either end and is empty exactly when the string is all whitespace |
| Text.StripIdempotent | utils/usda_api.py:14 | stripping a stripped string changes nothing |
| Text.ReplaceChar | utils/nutrition_calculator.py:180 | `replace('_', ' ')` keeps the length and swaps exactly the matching characters |
| Text.Title | utils/nutrition_calculator.py:180 | `title()` keeps the length and non-letters; a letter is upper case exactly when it starts a word |
| Vectors.AddVector | utils/data_storage.py:50-53 | adding one dictionary into the totals gives the union of the two key sets |
| Vectors.KeysOfMeansSomeVector | utils/data_storage.py:45-55 | a key is in the totals exactly when some entry has it |
| Vectors.TotalsSnoc | utils/data_storage.py:50-53 | adding one more entry to the totals is one key-wise addition |
| Vectors.TotalsEmptyIffAllEmpty | utils/data_storage.py:45-55 | the totals are empty exactly when every entry's nutrients are empty |
| Vectors.ColumnSumNonNegative | utils/data_storage.py:45-55 | non-negative amounts sum to a non-negative total |
| Vectors.CountNonEmpty | utils/data_storage.py:134-135 | the number of tracked days never exceeds the window length |
| SessionStorage.Stamped | utils/data_storage.py:26-29 | the appended entry is the caller's dictionary with its timestamp and entry id set and nothing else changed |
| SessionStorage.WithoutId | utils/data_storage.py:37-43 | the survivors are exactly the entries whose id differs, and no more of them than before |
| SessionStorage.WithoutIdKeepsOrder | utils/data_storage.py:40-42 | removal distributes over concatenation, so the survivors keep their relative order |
| SessionStorage.EntryIdsRepeatAfterRemoval | utils/data_storage.py:29-43 | after adding two entries and removing the first, the next entry gets the same id as the survivor |
| SessionStorage.KeepLatest | utils/data_storage.py:72-73 | the last at most n items of the history, in order: exactly n of them when the history is longer, the history itself otherwise |
| SessionStorage.KeepLatestKeepsNewest | utils/data_storage.py:69-73 | after an append and truncation to n > 0, the appended item is last |
| SessionStorage.AmountsOfSum | utils/data_storage.py:138-147 | the collected amounts of a nutrient sum to its total over the window |
| SessionStorage.AmountsOfCount | utils/data_storage.py:138-141 | a nutrient has collected amounts exactly when some day has it, and never more of them than tracked days |
| SessionStorage.Averages | utils/data_storage.py:146-147 | the averaged nutrients are exactly the ones some day had |
| SessionStorage.AverageIsTotalOverDaysWithNutrient | utils/data_storage.py:138-147 | each average is the nutrient's window total divided by the number of days the nutrient appeared on, which is between 1 and the tracked days |
| SessionStorage.TrackedDates | utils/data_storage.py:134-136 | one date per day with non-empty totals: every such day's window date is listed, and every listed date is the date of such a day |
| SessionStorage.TrackedIndices | utils/data_storage.py:129-136 | the positions of the days with non-empty totals, strictly increasing, each such day listed once |
| SessionStorage.TrackedDatesInWindowOrder | utils/data_storage.py:129-136 | the tracked dates are the window dates at those positions, so they keep the window's order |
| SessionStorage.SummaryOf | utils/data_storage.py:116-149 | `total_days` is the number of tracked dates and at most the window length; `dates_tracked` holds exactly the dates of days with non-empty totals; the averaged keys are the keys of the window's totals |
| SessionStorage.SummaryTwoOfSevenDays | utils/data_storage.py:116-149 | days 2 and 5 of seven with 100 and 150 calories: two tracked days, average 125, dates ["d2", "d5"] |
| SessionStorage.AverageCountsOnlyDaysWithNutrient | utils/data_storage.py:138-147 | two tracked days with iron 4 on one of them: iron averages 4, calories (100 and 200) average 150 |
| SessionStorage.StampedMeasurement | utils/data_storage.py:67-71 | the record gets today's date only when it has none, and always the timestamp; nothing else changes |
| SessionStorage.UpdateAll | utils/data_storage.py:102-103 | after the update, the dates are the old dates plus the imported ones |
| SessionStorage.ImportReplacesBuckets | utils/data_storage.py:102-103 | an imported date's bucket does not depend on what the store held before |
| SessionStorage.ImportKeepsOtherBuckets | utils/data_storage.py:102-103 | a date the import does not mention keeps its bucket |
| SessionStorage.ImportSetsBucket | utils/data_storage.py:102-103 | an imported date's bucket is the entries of the last imported pair for that date |
| SessionStorage.AppendNewDatesValid | utils/data_storage.py:102-103 | the key order after the update lists each old and imported date exactly once |
| SessionStorage.PartListsStep | utils/data_storage.py:138-141 | one pass of the inner loop appends one nutrient's amount to its list, creating the list when new |
| SessionStorage.PartListsDone | utils/data_storage.py:138-141 | before a day the lists are those of the earlier days; after all of its nutrients they include that day |
| SessionStorage.ListsAverage | utils/data_storage.py:146-147 | dividing every list's sum by its length gives the per-nutrient averages |
| SessionStorage.AddInto | utils/data_storage.py:51-53 | the inner totals loop adds every item of one entry's nutrients to the running totals |
| SessionStorage.TrackedStep | utils/data_storage.py:129-143 | one more window day adds one tracked day and its date exactly when its totals are non-empty |
| SessionStorage.CollectAmounts | utils/data_storage.py:138-141 | the inner summary loop over one day's totals yields the lists of the days so far plus that day |
| SessionStorage.AverageLists | utils/data_storage.py:146-147 | the averaging loop yields the per-nutrient averages |
| SessionStorage.DataStorage.constructor | utils/data_storage.py:11-20 | a fresh store has no entries, no cache and no measurements |
| SessionStorage.DataStorage.GetDailyEntries | utils/data_storage.py:33-35 | the date's bucket, or [] for an unknown date |
| SessionStorage.DataStorage.AddFoodEntry | utils/data_storage.py:22-31 | the stamped entry (id = old bucket length) is appended to the date's bucket, which is created and keyed last when absent; other dates, the cache and the history are unchanged |
| SessionStorage.DataStorage.RemoveFoodEntry | utils/data_storage.py:37-43 | the date's bucket keeps exactly the entries with another id, in order; an absent date and all other state are unchanged, and the date stays a key even when emptied |
| SessionStorage.DataStorage.GetDailyTotals | utils/data_storage.py:45-55 | the totals are the key-wise sum of the date's entries' nutrients, with an entry without nutrients counting as empty |
| SessionStorage.DataStorage.CacheFoodData | utils/data_storage.py:57-59 | the food is stored under its id, replacing any earlier one; nothing else changes and the store stays valid |
| SessionStorage.DataStorage.GetCachedFoodData | utils/data_storage.py:61-63 | the cached food when the id is cached, else None |
| SessionStorage.DataStorage.AddMeasurement | utils/data_storage.py:65-74 | the history becomes the latest 100 of the old history plus the stamped record, is at most 100 long, and its latest record is the one just added; nothing else changes and the store stays valid |
| SessionStorage.DataStorage.GetMeasurementsHistory | utils/data_storage.py:76-78 | the records oldest first: empty exactly when there is no latest measurement, and otherwise ending with it |
| SessionStorage.DataStorage.GetLatestMeasurement | utils/data_storage.py:80-84 | the last record of the history, or None exactly when the history is empty |
| SessionStorage.DataStorage.GetDatesWithEntries | utils/data_storage.py:86-88 | every date key exactly once, including dates whose entries were all removed |
| SessionStorage.DataStorage.ImportData | utils/data_storage.py:99-108 | imported buckets overwrite whole dates in import order; imported measurements are appended without the 100 cap; the cache is unchanged |
| SessionStorage.DataStorage.ClearAllData | utils/data_storage.py:110-114 | entries, cache and history are all empty |
| SessionStorage.DataStorage.DayTotals | utils/data_storage.py:129-132 | one totals dictionary per window date |
| SessionStorage.DataStorage.GetNutritionSummary | utils/data_storage.py:116-149 | the summary of the window's daily totals as SummaryOf defines it |
| DatabaseStorage.Numeric | utils/database_storage.py:57 | numbers and booleans (as 1 or 0) are summed; strings, nulls and lists or objects are skipped |
| DatabaseStorage.NewFoodRow | utils/database_storage.py:13-24 | missing fields default to meal_type "meal", name "", fdc_id 0, portion_size 0, portion_unit "g" and nutrients {}; each nutrient is stored as its number |
| DatabaseStorage.AddFoodEntry | utils/database_storage.py:13-24 | the new row is appended to its date's rows; other dates are untouched |
| DatabaseStorage.GetDailyEntries | utils/database_storage.py:26-43 | the date's rows as queried, or [] for a date without rows |
| DatabaseStorage.NumericPart | utils/database_storage.py:56-58 | a key is kept exactly when its value is numeric, with that number |
| DatabaseStorage.NewRowsTotalLikeSession | utils/database_storage.py:13-60 | rows stored from food dictionaries total exactly as the session store totals those dictionaries |
| DatabaseStorage.AddNumericInto | utils/database_storage.py:56-58 | the inner totals loop adds every numeric item of one row to the running totals |
| DatabaseStorage.NumericStep | utils/database_storage.py:56-58 | one pass adds a numeric value to its key's total and leaves the totals unchanged for any other value |
| DatabaseStorage.GetDailyTotals | utils/database_storage.py:49-60 | the totals are the key-wise sum of the numeric values of the date's rows |
| DatabaseStorage.OtherSums | utils/database_storage.py:169-173 | the separately reported nutrients are exactly the window's keys other than the four macros |
| DatabaseStorage.DivideAll | utils/database_storage.py:185-187 | each value times the divisor gives back the sum |
| DatabaseStorage.DbSummaryOf | utils/database_storage.py:134-189 | `total_days` is the requested number of days; `days_with_entries` counts days with non-empty totals; the nutrients exclude the four macros |
| DatabaseStorage.DbSummaryNoData | utils/database_storage.py:139-187 | with no tracked day, all four macro averages stay 0 and no nutrient is reported |
| DatabaseStorage.DbAveragesOverTrackedDays | utils/database_storage.py:178-187 | every average, macro or not, is the window total divided by the tracked days |
| DatabaseStorage.TwoDaysColumns | utils/database_storage.py:156-175 | over the two-day sample, two days are tracked, with 4 iron and 300 calories in total |
| DatabaseStorage.StoresAverageDifferently | utils/database_storage.py:178-187 | with iron on one of two tracked days, the database store reports iron 2 and 7 days; the session store reports iron 4 |
| DatabaseStorage.DayStep | utils/database_storage.py:156-167 | one more day adds its amounts to every column and counts it when it has totals |
| DatabaseStorage.OtherSumsSnoc | utils/database_storage.py:169-173 | one more day adds its non-macro items to the running sums |
| DatabaseStorage.OtherSumsEmptyDay | utils/database_storage.py:161-162 | a day without totals changes no sum |
| DatabaseStorage.AccumulateOthers | utils/database_storage.py:169-173 | the inner loop over one day yields the sums of the days so far plus that day |
| DatabaseStorage.OtherStep | utils/database_storage.py:169-173 | one pass adds a non-macro item to its sum, created at 0 when new, and skips a macro |
| DatabaseStorage.DivideSums | utils/database_storage.py:185-187 | the closing loop divides every sum by the tracked days |
| DatabaseStorage.DayTotals | utils/database_storage.py:156-159 | one totals dictionary per window date |
| DatabaseStorage.GetNutritionSummary | utils/database_storage.py:134-189 | the summary of the window's daily totals as DbSummaryOf defines it |
| DatabaseStorage.PopDate | utils/database_storage.py:74 | the date is taken from the record (today when absent) and removed from it; the rest is unchanged |
| DatabaseStorage.NonColumnKeys | utils/database.py:46-59 | the record's keys with no column in the measurements table: height_cm, notes and timestamp, each exactly when present, height_cm first |
| DatabaseStorage.AddMeasurement | utils/database_storage.py:72-79 | as written: raises TypeError exactly when the record has a height, notes or a timestamp, naming height_cm whenever it has a height; otherwise stores the record with the popped date |
| DatabaseStorage.AddMeasurementColumns | utils/database_storage.py:72-79 | corrected: the stored row has the popped date, no non-column key and every column field unchanged, and equals the as-written row whenever that one is stored |
| DatabaseStorage.FormatMeasurement | utils/database_storage.py:81-99 | a row read back from the measurements table has no height, notes or timestamp, since the table has no such columns, and every other field is unchanged |
| DatabaseStorage.StoredMeasurementReadsBack | utils/database_storage.py:72-104 | a corrected row stored as the newest reads back as the latest measurement, with the popped date and the record's weight, body fat, muscle, waist, chest, arms and thighs |
| DatabaseStorage.GetLatestMeasurement | utils/database_storage.py:101-104 | the first (newest) formatted row, or None exactly when the history is empty |
| UsdaApi.RowsDistinct | utils/usda_api.py:94-129 | no two rows of the renaming table share a catalog name or a target key |
| UsdaApi.CatalogNamesDistinct | utils/usda_api.py:94-129 | no catalog name is listed twice |
| UsdaApi.TargetsDistinct | utils/usda_api.py:94-129 | no target key is listed twice |
| UsdaApi.TableMap | utils/usda_api.py:94-129 | the dictionary maps each row's name to its key and has no other names |
| UsdaApi.NutrientMapping | utils/usda_api.py:94-129 | `get_nutrient_mapping` maps every table name to its key and has no other names |
| UsdaApi.MappingInjective | utils/usda_api.py:94-129 | no two catalog names map to the same internal key |
| UsdaApi.MappingTargetsKnownNutrients | utils/usda_api.py:94-129 | every target is a calculator nutrient, or one of the two fat fractions |
| UsdaApi.FatFractionsUntracked | utils/usda_api.py:127-128 | monounsaturated_fat and polyunsaturated_fat have no daily value and no unit |
| UsdaApi.MonounsaturatedUncategorised | utils/usda_api.py:127 | no category lists monounsaturated_fat |
| UsdaApi.PolyunsaturatedUncategorised | utils/usda_api.py:128 | no category lists polyunsaturated_fat |
| UsdaApi.Rename | utils/usda_api.py:131-141 | every recognised name appears under its key with its amount (the unit is dropped); every output key comes from a recognised input name |
| UsdaApi.NormalizeNutrients | utils/usda_api.py:131-141 | each table row whose catalog name the record has gives the row's key with that amount; every key comes from such a row; one key per recognised name |
| UsdaApi.RenameKeepsEveryRecognisedName | utils/usda_api.py:131-141 | the output has exactly one key per recognised input name, so no two collide |
| UsdaApi.RenameEmpty | utils/usda_api.py:131-141 | empty input gives empty output |
| UsdaApi.RenameDropsUnknownName | utils/usda_api.py:136-137 | an unrecognised name contributes nothing and raises nothing |
| UsdaApi.RenameSingle | utils/usda_api.py:136-139 | one recognised name gives one renamed amount |
| UsdaApi.NormalizeEnergyExample | utils/usda_api.py:131-141 | an energy amount and an unknown nutrient normalise to calories only |
| UsdaApi.SearchQuery | utils/usda_api.py:14-19 | the query is refused exactly when its stripped form is shorter than 2 characters; otherwise the stripped form is sent |
| UsdaApi.BlankQueryRefused | utils/usda_api.py:14-15 | an all-whitespace query is always refused |
| UsdaApi.SearchQueryStable | utils/usda_api.py:14-19 | a query that was sent is accepted again unchanged |
| Progress.CategoryOf | pages/progress.py:410-418 | the answer is the name of a category, or "Other", which it must be when no category lists the nutrient |
| Progress.CategoryOfFirst | pages/progress.py:414-416 | the search returns the first category listing the nutrient |
| Progress.NutrientCategory | pages/progress.py:410-418 | `get_nutrient_category` answers a calculator category name or "Other" |
| Progress.NutrientCategoryUnique | pages/progress.py:410-418 | a nutrient listed in a category gets exactly that category |
| Progress.UnlistedNutrientIsOther | pages/progress.py:417-418 | a nutrient without a reference value gets "Other" |
| Progress.GoalFor | pages/progress.py:306 | the personal goal when present, else the reference value, else none |
| Progress.MakeAchievement | pages/progress.py:308-315 | percentage·goal = average·100, with no cap; the category is the nutrient's category |
| Progress.Achievements | pages/progress.py:305-315 | rows come only from averages with a present positive goal, each carrying that nutrient's average and goal |
| Progress.AchievementsComplete | pages/progress.py:305-315 | every average with a positive goal gets a row |
| Progress.BuildAchievements | pages/progress.py:303-315 | the append loop builds exactly the achievements list |
| Progress.AnalysisPercentageUncapped | pages/progress.py:308 | 24 of an 8 mg goal is 300% in the analysis but 200% in the daily percentage |
| Progress.InsertByPercentage | pages/progress.py:318 | insertion adds exactly the one row |
| Progress.InsertKeepsSorted | pages/progress.py:318 | inserting into a sorted list keeps it sorted |
| Progress.SortByPercentage | pages/progress.py:318 | the result is sorted ascending by percentage and is a permutation of the rows |
| Progress.BandOf | pages/progress.py:321-323 | low exactly below 75, good exactly in [75, 125], high exactly above 125 |
| Progress.RowsIn | pages/progress.py:321-323 | a band's list holds exactly the rows of that band |
| Progress.RowsInKeepOrder | pages/progress.py:321-323 | each band's list of a sorted list is sorted |
| Progress.BandsPartition | pages/progress.py:321-323 | the three lists together are a permutation of the rows, so each row is in exactly one |
| Progress.TopFive | pages/progress.py:398 | the first min(5, n) low rows |
| Progress.Grouped | pages/progress.py:392-401 | grouping succeeds exactly when every row's category has a list, and then each list gains the display names of its category's rows in order; otherwise it raises KeyError naming a row's missing category |
| Progress.GroupedErrorPersists | pages/progress.py:398-401 | once a prefix has raised, the whole loop raises the same error |
| Progress.GroupRecommendations | pages/progress.py:392-401 | the loop over the five lowest rows computes Grouped |
| Progress.CholesterolRow | pages/progress.py:305-315 | a 30 mg cholesterol average against 300 mg is a single 10% row in category "Other" |
| Progress.LowCholesterolRaisesKeyError | pages/progress.py:392-401 | that week's analysis raises KeyError('Other') |
| Progress.OtherRowRaises | pages/progress.py:398-401 | any single low row in "Other" raises KeyError('Other') |
| Progress.NoOtherBucket | pages/progress.py:392-396 | the page prepares no list for "Other" |
| Progress.CholesterolLowRow | pages/progress.py:318-398 | the cholesterol row is the only low row recommended |
| Progress.CategoryHasBucket | pages/progress.py:410-418 | every category answer has a list once "Other" is added |
| Progress.TopLowIsRow | pages/progress.py:318-398 | every recommended row is a row of the analysis |
| Progress.RecommendationsAlwaysGrouped | pages/progress.py:392-401 | with a list for "Other" too, grouping never raises and each list holds exactly the low rows of its category |
| Progress.ProgressValue | pages/progress.py:61 | the bar value is in [0, 1]; it is percentage/100 between 0 and 100, 1 from 100 up, 0 from 0 down (the same clamp is at line 81) |
| Progress.MacroBar | pages/progress.py:57-61 | a macro's bar value is in [0, 1] (the second row of bars, lines 77-81, is the same) |
| Progress.MacroBarFullIffGoalMet | pages/progress.py:57-61 | for a positive goal, the bar is full exactly when the goal is met |
| Progress.Series | pages/progress.py:186-197 | one value per day of the window |
| Progress.SeriesSum | pages/progress.py:189-192 | the series sums to the nutrient's window total |
| Progress.WeeklyAverage | pages/progress.py:260 | seven times the average is the series total (the same division is at lines 269 and 282) |
| Progress.DaysTracked | pages/progress.py:278 | at most the series length, and 0 exactly when no day is positive |
| Progress.VersusGoal | pages/progress.py:265 | for a positive goal, the figure is positive exactly when the average exceeds the goal, and 0 exactly when they are equal (the same figure is at lines 274 and 287) |
| Progress.WeeklyAverageDilutes | pages/progress.py:260-278 | the weekly average never exceeds the average over tracked days, and equals it exactly when all seven days were tracked or the total is 0 |
| Progress.DividedBySeven | pages/progress.py:260 | a non-negative total over 7 is at most the same total over 1 to 7 days, with equality exactly at 7 days or a zero total |
| Progress.CalorieDaysAreTrackedDays | pages/progress.py:278 | days with calories never outnumber the days with entries |
| Progress.AnalysedAverages | pages/progress.py:296-305 | a session summary never raises; a database summary raises unless its `total_days` is 0; no averages exactly when `total_days` is 0 |
| Progress.DatabaseSummaryRaisesKeyError | pages/progress.py:296-305 | with the database store, every non-empty window raises KeyError('avg_nutrients'); the session store's does not |
| Progress.MergedAverages | utils/database_storage.py:178-187 | the database summary's averages as one dictionary: its nutrients plus the four macros |
| Progress.AnalysedAveragesFixed | pages/progress.py:296-305 | the analysis stops exactly when no day was tracked, for either store |
| Progress.FixedAnalysisReadsBothStores | pages/progress.py:296-305 | corrected, both stores stop on the same windows; the database store yields each nutrient's total over the tracked days |
| Measurements.CurrentStatsOf | pages/measurements.py:35-46 | with no or an empty latest measurement, the profile's weight and height are used and there is no body fat or muscle; otherwise each missing figure falls back to the profile |
| Measurements.DatabaseLatestShowsProfileHeight | pages/measurements.py:35-37 | with the database store, whose rows have no height column, the current height is always the profile's |
| Measurements.SessionLatestShowsRecordedHeight | pages/measurements.py:35-37 | with the session store, a measurement just added shows its recorded height |
| Measurements.BmiCategoryOf | pages/measurements.py:64-72 | each of the four categories holds exactly its half-open range |
| Measurements.BmiCategoryMonotone | pages/measurements.py:64-72 | a higher BMI never gets a lighter category |
| Measurements.BmiCategoryExamples | pages/measurements.py:49-72 | 70 kg at 175 cm is normal weight; 85 kg at 175 cm is overweight |
| Measurements.CurrentBmiCategory | pages/measurements.py:49-72 | with h the height in metres: underweight exactly when weight < 18.5·h², normal exactly in [18.5·h², 25·h²), overweight exactly in [25·h², 30·h²), obese exactly from 30·h² |
| Measurements.BodyComposition | pages/measurements.py:96-106 | fat·100 = weight·body fat %; without muscle, lean + fat = weight; with muscle, other = max(0, weight − fat − muscle) |
| Measurements.FatMassWithinWeight | pages/measurements.py:97-104 | a body fat % in [0, 100] keeps the fat and lean slices within the weight |
| Measurements.OtherSliceClipped | pages/measurements.py:100-102 | 80 kg at 50% fat with 50 kg muscle gives other = 0, so the slices add up to more than the weight |
| Measurements.PositiveOrNone | pages/measurements.py:210-212 | a figure is recorded exactly when it is above 0 |
| Measurements.NotesOrNone | pages/measurements.py:213 | notes are None exactly when all whitespace; otherwise they are stored stripped and non-empty |
| Measurements.NotesOrNoneStable | pages/measurements.py:213 | stored notes normalise to themselves |
| Measurements.FormMeasurement | pages/measurements.py:206-214 | the record has the date, weight and height, the three optional figures above 0 or None, and the normalised notes |
| Measurements.FormShowsInCurrentStats | pages/measurements.py:206-220 | after the form is stored in the session store, the current statistics show its weight and height, and a body fat only when one above 0 was entered |
| Measurements.FormRecordRaisesTypeError | pages/measurements.py:206-216 | as written, storing any record the form builds in the database store raises TypeError('height_cm') |
| Measurements.FormShowsInDatabaseStats | pages/measurements.py:206-220 | corrected, the form's row stored as the newest makes the current statistics show its weight and date, the profile height, and a body fat exactly when one above 0 was entered |

## Left out

- HTTP, Streamlit rendering, plotly charts, pandas and CSV export are not modelled. This covers the requests in `search_foods` and `get_food_details`.
- The clock (`date.today`, `datetime.now`, `timedelta` iteration) becomes parameters: the window of date keys, today's date and the timestamp.
- Floating point: every quantity is a `real`, so IEEE rounding is not modelled.
- `export_data` (session and database) only serialises the state; it is left out.
- `import_data` also overwrites `user_profile`. The profile is page state and is not part of the model.
- Several database-store operations are one-line delegations to the database and are not modelled:
  - `remove_food_entry` and `get_dates_with_entries`;
  - the food cache, whose lookup always misses;
  - `import_data` and `clear_all_data`, which do nothing.
  The measurement history is modelled only as the query's newest-first result.
- The ORM layer, JSON (de)serialisation and the database session are abstracted to a map from date to rows and a sequence of measurement rows. Query order is taken as given.
- The per-category daily progress listing (pages/progress.py:96-120) is display code and is not modelled. Its percentages come from `NutrientPercentage`.
- The display strings of the status, the metrics and the recommendations (beyond the display names) are not modelled.
- Aliasing: the session store's records are values. A caller mutating a dictionary after storing it is not modelled.
- Dictionary iteration order of the averages is a parameter: the analysis takes `(nutrient, average)` pairs in order.
- A dictionary key that is absent and one that holds `None` are both `None` in the records.
- `normalize_nutrients` assumes every catalog nutrient has an amount. Missing amounts are not modelled.
- Progress.VersusGoal: requires a non-zero goal. A zero calorie or protein goal raises ZeroDivisionError in the source.
- NutritionCalculator.Bmi: requires a non-zero height, where the source raises ZeroDivisionError.
- NutritionCalculator.ScaleNutrients: requires a non-zero reference portion, where the source raises ZeroDivisionError.
- Progress.SortByPercentage: sorts a sequence functionally rather than in place. It states sortedness and permutation but not the stability of Python's sort.
- NutritionCalculator.NutrientDisplayName: for a key without a table name, it states the length and the absence of underscores; the casing is stated by Text.Title.
- Text.Lower: lower-cases ASCII letters only; Unicode case mapping is not modelled.
- Text.Title: treats only ASCII letters as letters.
- DatabaseStorage.AddMeasurement: a key that holds None also raises TypeError in the source (the form's blank `notes`); records conflate it with an absent key, so the model raises only for keys with a value. The form's record always has a height, so every form submission raises either way.
- DatabaseStorage.AddMeasurement: the keyword arguments are checked in the record's field order (height_cm, notes, timestamp), which is the order in which the form and the session store add them.
- NutritionCalculator.MealCaloriesScale: takes the factor f with f·reference = portion as a parameter rather than writing portion/reference.

## Findings

| source | as written | input that shows it | evidently intended | confidence | as-written member | corrected member |
|---|---|---|---|---|---|---|
| pages/progress.py:392-401 | the recommendation lists are "Vitamins", "Minerals" and "Macronutrients", but `get_nutrient_category` can also answer "Other" | a week whose only average is 30 mg of cholesterol against a 300 mg goal (10%, a low row in "Other") raises KeyError('Other') | every low nutrient is grouped under its own category | not executed | Progress.LowCholesterolRaisesKeyError | Progress.RecommendationsAlwaysGrouped |
| utils/database_storage.py:72-79 | the record minus its date is passed as keyword arguments to the measurements table, which has no height_cm or notes column | every record the measurement form submits has height_cm, so the database store raises TypeError('height_cm') and nothing is stored | store only the fields that have columns | not executed | Measurements.FormRecordRaisesTypeError | DatabaseStorage.AddMeasurementColumns |
| pages/progress.py:296-305 | the analysis reads `summary['avg_nutrients']`, which only the session store's summary has; the database store's `total_days` is the window length, so the guard never stops it | any seven-day window with the database store raises KeyError('avg_nutrients'), tracked or not | stop when no day was tracked, and read the database summary's averages from the fields it has | not executed | Progress.DatabaseSummaryRaisesKeyError | Progress.FixedAnalysisReadsBothStores |
