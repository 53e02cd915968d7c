/** The arithmetic and list handling of the progress page: the category of a nutrient, the
    goal-achievement analysis (build, sort, split into bands, group recommendations), the
    progress-bar value and the weekly summary figures. Rendering is not modelled. */
module Progress {
  import opened Wrappers
  import opened Vectors
  import opened NutritionCalculator
  import SessionStorage
  import DatabaseStorage

  // ---------------------------------------------------------------- categories

  /** No category before the `i`-th lists `n`. */
  predicate FirstListing(cats: seq<(string, seq<string>)>, n: string, i: int) {
    forall j :: 0 <= j < i && j < |cats| ==> n !in cats[j].1
  }

  /** The name of the first category in `cats` listing `n`, or "Other" when none does. */
  function CategoryOf(cats: seq<(string, seq<string>)>, n: string): (c: string)
    ensures (forall i :: 0 <= i < |cats| ==> n !in cats[i].1) ==> c == "Other"
    ensures c == "Other" || exists i :: 0 <= i < |cats| && c == cats[i].0
  {
    if cats == [] then "Other"
    else if n in cats[0].1 then cats[0].0
    else
      assert forall i :: 1 <= i < |cats| ==> cats[1..][i - 1] == cats[i];
      CategoryOf(cats[1..], n)
  }

  /** The search stops at the first category listing the nutrient. */
  lemma {:induction false} CategoryOfFirst(cats: seq<(string, seq<string>)>, n: string, i: nat)
    requires i < |cats| && n in cats[i].1 && FirstListing(cats, n, i)
    ensures CategoryOf(cats, n) == cats[i].0
  {
    if i > 0 {
      assert n !in cats[0].1;
      forall j | 0 <= j < i - 1 ensures n !in cats[1..][j].1 {
        assert cats[1..][j] == cats[j + 1];
      }
      CategoryOfFirst(cats[1..], n, i - 1);
    }
  }

  /** `get_nutrient_category`. */
  function NutrientCategory(n: string): (c: string)
    ensures c == "Other" || exists i :: 0 <= i < |NutrientCategories| && c == NutrientCategories[i].0
  {
    CategoryOf(NutrientCategories, n)
  }

  /** The calculator's categories are disjoint, so the category listing a nutrient is the
      answer whichever order they are searched in. */
  lemma NutrientCategoryUnique(i: nat, n: string)
    requires i < |NutrientCategories| && n in NutrientCategories[i].1
    ensures NutrientCategory(n) == NutrientCategories[i].0
  {
    CategoriesDisjoint();
    forall j | 0 <= j < i ensures n !in NutrientCategories[j].1 {
      assert n in CategoryMembers(i);
      assert CategoryMembers(j) !! CategoryMembers(i);
    }
    CategoryOfFirst(NutrientCategories, n, i);
  }

  /** A nutrient without a reference daily value is in no category. */
  lemma UnlistedNutrientIsOther(n: string)
    requires n !in DailyValues
    ensures NutrientCategory(n) == "Other"
  {
    CategoriesCoverDailyValues();
    forall i | 0 <= i < |NutrientCategories| ensures n !in NutrientCategories[i].1 {
      assert n !in CategoryMembers(i);
    }
  }

  // ---------------------------------------------------------------- achievements

  /** `daily_goals.get(n, daily_values.get(n))`. */
  function GoalFor(goals: NutrientVector, n: string): (g: Option<real>)
    ensures n in goals ==> g == Some(goals[n])
    ensures n !in goals ==> (g.Some? <==> n in DailyValues) && (g.Some? ==> g.value == DailyValues[n])
  {
    if n in goals then Some(goals[n])
    else if n in DailyValues then Some(DailyValues[n])
    else None
  }

  /** `if goal and goal > 0`: a missing goal and a zero goal are both skipped. */
  predicate HasPositiveGoal(goals: NutrientVector, n: string) {
    GoalFor(goals, n).Some? && GoalFor(goals, n).value > 0.0
  }

  /** One row of the goal analysis. */
  datatype Achievement = Achievement(
    nutrient: string,
    avgConsumed: real,
    goal: real,
    percentage: real,
    category: string)

  /** The row for a nutrient with a positive goal; its percentage is not capped. */
  function MakeAchievement(n: string, avg: real, goal: real): (a: Achievement)
    requires goal > 0.0
    ensures a.nutrient == n && a.avgConsumed == avg && a.goal == goal
    ensures a.percentage * goal == avg * 100.0
    ensures a.category == NutrientCategory(n)
  {
    Achievement(n, avg, goal, avg / goal * 100.0, NutrientCategory(n))
  }

  /** The achievements list built from the averages `items` (in dictionary order). */
  function Achievements(items: seq<(string, real)>, goals: NutrientVector): (r: seq<Achievement>)
    ensures |r| <= |items|
    ensures forall a :: a in r ==>
      (a.nutrient, a.avgConsumed) in items && HasPositiveGoal(goals, a.nutrient) &&
      GoalFor(goals, a.nutrient).value == a.goal &&
      a.percentage * a.goal == a.avgConsumed * 100.0 && a.category == NutrientCategory(a.nutrient)
  {
    if items == [] then []
    else
      var rest := Achievements(items[..|items| - 1], goals);
      var (n, avg) := items[|items| - 1];
      if HasPositiveGoal(goals, n) then rest + [MakeAchievement(n, avg, GoalFor(goals, n).value)]
      else rest
  }

  /** Every average whose nutrient has a positive goal gets a row. */
  lemma {:induction false} AchievementsComplete(items: seq<(string, real)>, goals: NutrientVector, i: int)
    requires 0 <= i < |items| && HasPositiveGoal(goals, items[i].0)
    ensures exists a :: a in Achievements(items, goals) && a.nutrient == items[i].0 && a.avgConsumed == items[i].1
  {
    var last := |items| - 1;
    if i == last {
      var a := MakeAchievement(items[i].0, items[i].1, GoalFor(goals, items[i].0).value);
      assert a in Achievements(items, goals);
    } else {
      AchievementsComplete(items[..last], goals, i);
      var a :| a in Achievements(items[..last], goals) && a.nutrient == items[i].0 && a.avgConsumed == items[i].1;
      assert a in Achievements(items, goals);
    }
  }

  /** The loop of `show_goal_analysis` that appends one row per nutrient with a goal. */
  method BuildAchievements(items: seq<(string, real)>, goals: NutrientVector) returns (r: seq<Achievement>)
    ensures r == Achievements(items, goals)
  {
    r := [];
    var i := 0;
    while i < |items|
      invariant 0 <= i <= |items|
      invariant r == Achievements(items[..i], goals)
    {
      var (n, avg) := items[i];
      var goal := GoalFor(goals, n);
      if goal.Some? && goal.value > 0.0 {
        r := r + [MakeAchievement(n, avg, goal.value)];
      }
      SessionStorage.PrefixSnoc(items, i);
      i := i + 1;
    }
    assert items[..i] == items;
  }

  /** Unlike the daily percentage, the analysis does not cap at 200. */
  lemma AnalysisPercentageUncapped()
    ensures MakeAchievement("iron", 24.0, 8.0).percentage == 300.0
    ensures NutrientPercentage(24.0, 8.0) == 200.0
  {
  }

  // ---------------------------------------------------------------- sorting

  predicate SortedByPercentage(xs: seq<Achievement>) {
    forall i, j :: 0 <= i < j < |xs| ==> xs[i].percentage <= xs[j].percentage
  }

  /** Puts `a` after every element of `sorted` whose percentage is not above its own. */
  function InsertByPercentage(sorted: seq<Achievement>, a: Achievement): (r: seq<Achievement>)
    ensures |r| == |sorted| + 1
    ensures multiset(r) == multiset(sorted) + multiset{a}
  {
    if sorted == [] || sorted[|sorted| - 1].percentage <= a.percentage then sorted + [a]
    else
      var init := sorted[..|sorted| - 1];
      assert sorted == init + [sorted[|sorted| - 1]];
      InsertByPercentage(init, a) + [sorted[|sorted| - 1]]
  }

  /** Inserting into a sorted list keeps it sorted. */
  lemma {:induction false} InsertKeepsSorted(sorted: seq<Achievement>, a: Achievement)
    requires SortedByPercentage(sorted)
    ensures SortedByPercentage(InsertByPercentage(sorted, a))
  {
    if sorted == [] {
    } else if sorted[|sorted| - 1].percentage <= a.percentage {
      forall x | x in sorted ensures x.percentage <= a.percentage {
        var k :| 0 <= k < |sorted| && sorted[k] == x;
      }
      AppendToSorted(sorted, a);
    } else {
      var init := sorted[..|sorted| - 1];
      var last := sorted[|sorted| - 1];
      assert SortedByPercentage(init);
      InsertKeepsSorted(init, a);
      var r := InsertByPercentage(init, a);
      forall x | x in r ensures x.percentage <= last.percentage {
        assert x in multiset(r);
        if x != a {
          assert x in multiset(init);
          var k :| 0 <= k < |init| && init[k] == x;
          assert sorted[k] == x;
        }
      }
      AppendToSorted(r, last);
    }
  }

  /** An element no smaller than any of a sorted list goes at its end. */
  lemma AppendToSorted(xs: seq<Achievement>, y: Achievement)
    requires SortedByPercentage(xs)
    requires forall x :: x in xs ==> x.percentage <= y.percentage
    ensures SortedByPercentage(xs + [y])
  {
    var whole := xs + [y];
    forall i, j | 0 <= i < j < |whole| ensures whole[i].percentage <= whole[j].percentage {
      if j == |xs| {
        assert whole[i] in xs;
      } else {
        assert whole[i] == xs[i] && whole[j] == xs[j];
      }
    }
  }

  /** `achievements.sort(key=lambda x: x['percentage'])`, as a stable insertion sort. */
  function SortByPercentage(xs: seq<Achievement>): (r: seq<Achievement>)
    ensures SortedByPercentage(r)
    ensures multiset(r) == multiset(xs)
  {
    if xs == [] then []
    else
      var init := xs[..|xs| - 1];
      assert xs == init + [xs[|xs| - 1]];
      var sortedInit := SortByPercentage(init);
      InsertKeepsSorted(sortedInit, xs[|xs| - 1]);
      InsertByPercentage(sortedInit, xs[|xs| - 1])
  }

  // ---------------------------------------------------------------- bands

  /** The three lists of the analysis: below 75%, 75% to 125% inclusive, above 125%. */
  datatype Band = BelowTarget | OnTarget | AboveTarget

  function BandOf(p: real): (b: Band)
    ensures b == BelowTarget <==> p < 75.0
    ensures b == OnTarget <==> 75.0 <= p <= 125.0
    ensures b == AboveTarget <==> p > 125.0
  {
    if p < 75.0 then BelowTarget else if p <= 125.0 then OnTarget else AboveTarget
  }

  /** The list comprehension keeping the rows of band `b`, in their order. */
  function RowsIn(xs: seq<Achievement>, b: Band): (r: seq<Achievement>)
    ensures |r| <= |xs|
    ensures forall a :: a in r <==> a in xs && BandOf(a.percentage) == b
  {
    if xs == [] then []
    else
      var last := xs[|xs| - 1];
      assert xs == xs[..|xs| - 1] + [last];
      RowsIn(xs[..|xs| - 1], b) + (if BandOf(last.percentage) == b then [last] else [])
  }

  /** Filtering a sorted list leaves it sorted. */
  lemma {:induction false} RowsInKeepOrder(xs: seq<Achievement>, b: Band)
    requires SortedByPercentage(xs)
    ensures SortedByPercentage(RowsIn(xs, b))
  {
    if xs != [] {
      var init, last := xs[..|xs| - 1], xs[|xs| - 1];
      assert SortedByPercentage(init);
      RowsInKeepOrder(init, b);
      var r := RowsIn(init, b);
      if BandOf(last.percentage) == b {
        forall x | x in r ensures x.percentage <= last.percentage {
          var k :| 0 <= k < |init| && init[k] == x;
          assert xs[k] == x;
        }
        AppendToSorted(r, last);
      }
    }
  }

  /** The three bands split the rows: each row lands in exactly one of them. */
  lemma {:induction false} BandsPartition(xs: seq<Achievement>)
    ensures multiset(RowsIn(xs, BelowTarget)) + multiset(RowsIn(xs, OnTarget)) + multiset(RowsIn(xs, AboveTarget))
         == multiset(xs)
  {
    if xs != [] {
      var init, last := xs[..|xs| - 1], xs[|xs| - 1];
      BandsPartition(init);
      assert multiset(xs) == multiset(init) + multiset{last} by {
        assert xs == init + [last];
      }
      var lo, on, hi := RowsIn(init, BelowTarget), RowsIn(init, OnTarget), RowsIn(init, AboveTarget);
      RowsInSnoc(xs, BelowTarget);
      RowsInSnoc(xs, OnTarget);
      RowsInSnoc(xs, AboveTarget);
      match BandOf(last.percentage)
      case BelowTarget =>
        assert RowsIn(xs, BelowTarget) == lo + [last];
        assert RowsIn(xs, OnTarget) == on && RowsIn(xs, AboveTarget) == hi;
        OneMoreInFirst(multiset(lo), multiset(on), multiset(hi), last);
      case OnTarget =>
        assert RowsIn(xs, OnTarget) == on + [last];
        assert RowsIn(xs, BelowTarget) == lo && RowsIn(xs, AboveTarget) == hi;
        OneMoreInFirst(multiset(on), multiset(lo), multiset(hi), last);
      case AboveTarget =>
        assert RowsIn(xs, AboveTarget) == hi + [last];
        assert RowsIn(xs, BelowTarget) == lo && RowsIn(xs, OnTarget) == on;
        OneMoreInFirst(multiset(hi), multiset(lo), multiset(on), last);
    }
  }

  /** Adding an element to one of three parts adds it to their union, whichever part it is. */
  lemma OneMoreInFirst(a: multiset<Achievement>, b: multiset<Achievement>, c: multiset<Achievement>, x: Achievement)
    ensures (a + multiset{x}) + b + c == (a + b + c) + multiset{x}
    ensures b + (a + multiset{x}) + c == (b + a + c) + multiset{x}
    ensures b + c + (a + multiset{x}) == (b + c + a) + multiset{x}
  {
  }

  lemma RowsInSnoc(xs: seq<Achievement>, b: Band)
    requires xs != []
    ensures RowsIn(xs, b) == RowsIn(xs[..|xs| - 1], b) +
      (if BandOf(xs[|xs| - 1].percentage) == b then [xs[|xs| - 1]] else [])
  {
  }

  // ---------------------------------------------------------------- recommendations

  /** Category name to the display names recommended in it. */
  type Buckets = map<string, seq<string>>

  /** The three lists the page prepares; there is none for "Other". */
  const SourceBuckets: Buckets := map["Vitamins" := [], "Minerals" := [], "Macronutrients" := []]

  /** One list per category `get_nutrient_category` can answer. */
  const AllBuckets: Buckets := SourceBuckets["Other" := []]

  /** `low_nutrients[:5]`. */
  function TopFive(low: seq<Achievement>): (r: seq<Achievement>)
    ensures |r| == if |low| <= 5 then |low| else 5
    ensures r == low[..|r|]
  {
    if |low| <= 5 then low else low[..5]
  }

  /** The display names, in order, of the rows of `xs` in category `c`. */
  function NamesIn(xs: seq<Achievement>, c: string): seq<string> {
    if xs == [] then []
    else
      var last := xs[|xs| - 1];
      NamesIn(xs[..|xs| - 1], c) + (if last.category == c then [NutrientDisplayName(last.nutrient)] else [])
  }

  /** `recommendations[category].append(...)` over `xs`, raising KeyError at the first row
      whose category has no list. */
  function Grouped(xs: seq<Achievement>, buckets: Buckets): (r: Result<Buckets>)
    ensures r.Ok? <==> forall a :: a in xs ==> a.category in buckets
    ensures r.Ok? ==> (r.value.Keys == buckets.Keys &&
                       forall c :: c in buckets ==> r.value[c] == buckets[c] + NamesIn(xs, c))
    ensures r.Err? ==> r.error.KeyError? && r.error.key !in buckets &&
                       exists a :: a in xs && a.category == r.error.key
  {
    if xs == [] then Ok(buckets)
    else
      var init := xs[..|xs| - 1];
      var last := xs[|xs| - 1];
      assert xs == init + [last];
      SnocMembers(init, last);
      match Grouped(init, buckets)
      case Err(e) => Err(e)
      case Ok(b) =>
        if last.category in b then
          var r := b[last.category := b[last.category] + [NutrientDisplayName(last.nutrient)]];
          AppendStep(init, last, buckets, b, r);
          Ok(r)
        else Err(KeyError(last.category))
  }

  lemma SnocMembers(init: seq<Achievement>, last: Achievement)
    ensures forall a :: a in init + [last] <==> a in init || a == last
  {
  }

  /** One `append` of the loop in `Grouped` keeps every list equal to its initial contents
      followed by the names of its category seen so far. */
  lemma AppendStep(init: seq<Achievement>, last: Achievement, buckets: Buckets, b: Buckets, r: Buckets)
    requires b.Keys == buckets.Keys && last.category in b
    requires forall c :: c in buckets ==> b[c] == buckets[c] + NamesIn(init, c)
    requires r == b[last.category := b[last.category] + [NutrientDisplayName(last.nutrient)]]
    ensures r.Keys == buckets.Keys
    ensures forall c :: c in buckets ==> r[c] == buckets[c] + NamesIn(init + [last], c)
  {
    var xs := init + [last];
    assert xs[..|xs| - 1] == init;
    forall c | c in buckets
      ensures r[c] == buckets[c] + NamesIn(xs, c)
    {
      assert NamesIn(xs, c) == NamesIn(init, c) +
        (if last.category == c then [NutrientDisplayName(last.nutrient)] else []);
    }
  }

  /** Once a prefix has raised, the whole list raises the same error. */
  lemma {:induction false} GroupedErrorPersists(xs: seq<Achievement>, buckets: Buckets, i: nat)
    requires i <= |xs| && Grouped(xs[..i], buckets).Err?
    ensures Grouped(xs, buckets) == Grouped(xs[..i], buckets)
  {
    if i < |xs| {
      var init := xs[..|xs| - 1];
      assert init[..i] == xs[..i];
      GroupedErrorPersists(init, buckets, i);
    } else {
      assert xs[..i] == xs;
    }
  }

  /** The recommendation loop over the five lowest rows. */
  method GroupRecommendations(low: seq<Achievement>, buckets: Buckets) returns (r: Result<Buckets>)
    ensures r == Grouped(TopFive(low), buckets)
  {
    var top := TopFive(low);
    var b := buckets;
    var i := 0;
    while i < |top|
      invariant 0 <= i <= |top|
      invariant Grouped(top[..i], buckets) == Ok(b)
    {
      var a := top[i];
      SessionStorage.PrefixSnoc(top, i);
      assert top[..i + 1][..i] == top[..i];
      if a.category !in b {
        GroupedErrorPersists(top, buckets, i + 1);
        return Err(KeyError(a.category));
      }
      b := b[a.category := b[a.category] + [NutrientDisplayName(a.nutrient)]];
      i := i + 1;
    }
    assert top[..i] == top;
    r := Ok(b);
  }

  /** The one analysis row of a week whose only average is 30 mg of cholesterol. */
  lemma CholesterolRow()
    ensures Achievements([("cholesterol", 30.0)], map["cholesterol" := 300.0])
         == [Achievement("cholesterol", 30.0, 300.0, 10.0, "Other")]
  {
    var items := [("cholesterol", 30.0)];
    assert items[..0] == [];
    NutrientCategoryUnique(3, "cholesterol");
    assert MakeAchievement("cholesterol", 30.0, 300.0).percentage == 10.0;
  }

  /** The analysis as written: a cholesterol average below 75% of its goal is a low row in
      category "Other", and grouping it raises KeyError('Other'). */
  lemma LowCholesterolRaisesKeyError()
    ensures var rows := Achievements([("cholesterol", 30.0)], map["cholesterol" := 300.0]);
      Grouped(TopFive(RowsIn(SortByPercentage(rows), BelowTarget)), SourceBuckets) == Err(KeyError("Other"))
  {
    var a := CholesterolLowRow();
    OtherRowRaises(a);
  }

  /** Grouping a single row of category "Other" into the page's lists raises. */
  lemma OtherRowRaises(a: Achievement)
    requires a.category == "Other"
    ensures Grouped([a], SourceBuckets) == Err(KeyError("Other"))
  {
    NoOtherBucket();
    assert a in [a];
    var r := Grouped([a], SourceBuckets);
    assert r.Err?;
    assert forall b :: b in [a] ==> b == a;
  }

  /** The page prepares no list for "Other". */
  lemma NoOtherBucket()
    ensures "Other" !in SourceBuckets
  {
    assert SourceBuckets.Keys == {"Vitamins", "Minerals", "Macronutrients"};
    assert |"Other"| == 5 && |"Vitamins"| == 8 && |"Minerals"| == 8 && |"Macronutrients"| == 14;
  }

  /** The single cholesterol row is the one low row recommended. */
  lemma CholesterolLowRow() returns (a: Achievement)
    ensures a == Achievement("cholesterol", 30.0, 300.0, 10.0, "Other")
    ensures var rows := Achievements([("cholesterol", 30.0)], map["cholesterol" := 300.0]);
      TopFive(RowsIn(SortByPercentage(rows), BelowTarget)) == [a]
  {
    CholesterolRow();
    a := Achievement("cholesterol", 30.0, 300.0, 10.0, "Other");
    assert [a][..0] == [];
    assert SortByPercentage([a]) == [a];
    assert RowsIn([a], BelowTarget) == [a];
    assert TopFive([a]) == [a];
  }

  /** `get_nutrient_category` only answers the four names of AllBuckets. */
  lemma CategoryHasBucket(n: string)
    ensures NutrientCategory(n) in AllBuckets
  {
  }

  lemma AllBucketsEmpty()
    ensures forall c :: c in AllBuckets ==> AllBuckets[c] == []
  {
  }

  /** A row among the five lowest is a row of the analysis. */
  lemma TopLowIsRow(rows: seq<Achievement>, a: Achievement)
    requires a in TopFive(RowsIn(SortByPercentage(rows), BelowTarget))
    ensures a in rows
  {
    var sorted := SortByPercentage(rows);
    assert a in RowsIn(sorted, BelowTarget);
    assert a in multiset(sorted);
  }

  /** With a list for every category, grouping the five lowest rows of any analysis never
      raises, and each list collects exactly the low rows of its category. */
  lemma RecommendationsAlwaysGrouped(items: seq<(string, real)>, goals: NutrientVector)
    ensures var top := TopFive(RowsIn(SortByPercentage(Achievements(items, goals)), BelowTarget));
      var r := Grouped(top, AllBuckets);
      r.Ok? && r.value.Keys == AllBuckets.Keys &&
      forall c :: c in AllBuckets ==> r.value[c] == NamesIn(top, c)
  {
    var rows := Achievements(items, goals);
    var top := TopFive(RowsIn(SortByPercentage(rows), BelowTarget));
    forall a | a in top ensures a.category in AllBuckets {
      TopLowIsRow(rows, a);
      CategoryHasBucket(a.nutrient);
    }
    AllBucketsEmpty();
  }

  // ---------------------------------------------------------------- progress bars

  /** `max(0.0, min(percentage / 100, 1.0))`. */
  function ProgressValue(percentage: real): (v: real)
    ensures 0.0 <= v <= 1.0
    ensures 0.0 <= percentage <= 100.0 ==> v * 100.0 == percentage
    ensures percentage >= 100.0 ==> v == 1.0
    ensures percentage <= 0.0 ==> v == 0.0
  {
    var x := Min(percentage / 100.0, 1.0);
    if x < 0.0 then 0.0 else x
  }

  /** The bar of a macronutrient: `daily_totals.get(macro, 0)` against
      `daily_goals.get(macro, 1)`. */
  function MacroBar(totals: NutrientVector, goals: NutrientVector, macro: string): (v: real)
    ensures 0.0 <= v <= 1.0
  {
    ProgressValue(NutrientPercentage(Amount(totals, macro), if macro in goals then goals[macro] else 1.0))
  }

  /** For a positive goal, the bar is full exactly when the goal is met. */
  lemma MacroBarFullIffGoalMet(totals: NutrientVector, goals: NutrientVector, macro: string)
    requires macro in goals && goals[macro] > 0.0
    ensures MacroBar(totals, goals, macro) == 1.0 <==> Amount(totals, macro) >= goals[macro]
  {
    var c, g := Amount(totals, macro), goals[macro];
    assert c / g * g == c;
    assert c / g >= 1.0 <==> c >= g;
  }

  // ---------------------------------------------------------------- weekly summary

  /** The amounts of `k`, one per day, a day without it counting 0 (`daily_totals.get(k, 0)`). */
  function Series(ds: seq<NutrientVector>, k: string): (r: seq<real>)
    ensures |r| == |ds|
  {
    seq(|ds|, i requires 0 <= i < |ds| => Amount(ds[i], k))
  }

  /** The series adds up to the window total of the nutrient. */
  lemma {:induction false} SeriesSum(ds: seq<NutrientVector>, k: string)
    ensures Sum(Series(ds, k)) == ColumnSum(ds, k)
  {
    if ds != [] {
      var init := ds[..|ds| - 1];
      SeriesSum(init, k);
      assert Series(ds, k)[..|ds| - 1] == Series(init, k);
    }
  }

  /** `sum(series) / 7`: every day of the week counts, tracked or not. */
  function WeeklyAverage(series: seq<real>): (avg: real)
    requires |series| == 7
    ensures avg * 7.0 == Sum(series)
  {
    Sum(series) / 7.0
  }

  /** `sum(1 for c in series if c > 0)`. */
  function DaysTracked(series: seq<real>): (n: nat)
    ensures n <= |series|
    ensures n == 0 <==> forall i :: 0 <= i < |series| ==> series[i] <= 0.0
  {
    if series == [] then 0
    else
      var init := series[..|series| - 1];
      assert forall i :: 0 <= i < |init| ==> init[i] == series[i];
      DaysTracked(init) + (if series[|series| - 1] > 0.0 then 1 else 0)
  }

  /** `(avg / goal - 1) * 100`: positive exactly when the average is above a positive goal. */
  function VersusGoal(avg: real, goal: real): (r: real)
    requires goal != 0.0
    ensures goal > 0.0 ==> (r > 0.0 <==> avg > goal) && (r == 0.0 <==> avg == goal)
  {
    assert avg / goal * goal == avg;
    (avg / goal - 1.0) * 100.0
  }

  lemma {:induction false} SumNonNegative(xs: seq<real>)
    requires forall i :: 0 <= i < |xs| ==> xs[i] >= 0.0
    ensures Sum(xs) >= 0.0
  {
    if xs != [] {
      SumNonNegative(xs[..|xs| - 1]);
    }
  }

  /** Untracked days dilute the weekly average: it never exceeds the average over the
      tracked days, and equals it only when all seven were tracked or nothing was eaten. */
  lemma WeeklyAverageDilutes(series: seq<real>)
    requires |series| == 7 && forall i :: 0 <= i < 7 ==> series[i] >= 0.0
    requires DaysTracked(series) > 0
    ensures WeeklyAverage(series) <= Sum(series) / (DaysTracked(series) as real)
    ensures WeeklyAverage(series) == Sum(series) / (DaysTracked(series) as real)
        <==> DaysTracked(series) == 7 || Sum(series) == 0.0
  {
    SumNonNegative(series);
    DividedBySeven(Sum(series), DaysTracked(series));
  }

  /** A non-negative total over seven days against the same total over 1 to 7 days. */
  lemma DividedBySeven(t: real, n: int)
    requires t >= 0.0 && 1 <= n <= 7
    ensures t / 7.0 <= t / (n as real)
    ensures t / 7.0 == t / (n as real) <==> n == 7 || t == 0.0
  {
    if n == 1 {
    } else if n == 2 {
    } else if n == 3 {
    } else if n == 4 {
    } else if n == 5 {
    } else if n == 6 {
    }
  }

  /** A day with calories has entries, so "Days Tracked" never exceeds the days the
      session summary counts. */
  lemma {:induction false} CalorieDaysAreTrackedDays(ds: seq<NutrientVector>)
    ensures DaysTracked(Series(ds, "calories")) <= CountNonEmpty(ds)
  {
    if ds != [] {
      var init := ds[..|ds| - 1];
      CalorieDaysAreTrackedDays(init);
      assert Series(ds, "calories")[..|ds| - 1] == Series(init, "calories");
    }
  }

  // ---------------------------------------------------------------- the analysed summary

  /** The summary dictionary the analysis receives, from either store. */
  datatype StoredSummary =
    | FromSession(session: SessionStorage.NutritionSummary)
    | FromDatabase(db: DatabaseStorage.DbNutritionSummary)

  function TotalDays(summary: StoredSummary): int {
    match summary
    case FromSession(s) => s.totalDays
    case FromDatabase(d) => d.totalDays
  }

  /** As written: stop when `total_days` is 0, otherwise read `avg_nutrients`, a key only
      the session summary has. */
  function AnalysedAverages(summary: StoredSummary): (r: Result<Option<NutrientVector>>)
    ensures summary.FromSession? ==> r.Ok?
    ensures summary.FromDatabase? ==> (r.Ok? <==> summary.db.totalDays == 0)
    ensures r.Ok? ==> (r.value.None? <==> TotalDays(summary) == 0)
  {
    match summary
    case FromSession(s) => Ok(if s.totalDays == 0 then None else Some(s.avgNutrients))
    case FromDatabase(d) => if d.totalDays == 0 then Ok(None) else Err(KeyError("avg_nutrients"))
  }

  /** With the database store every non-empty window raises, whether or not anything was
      tracked, because its `total_days` is the window length. */
  lemma DatabaseSummaryRaisesKeyError(window: seq<string>, ds: seq<NutrientVector>)
    requires |window| == |ds| > 0
    ensures AnalysedAverages(FromDatabase(DatabaseStorage.DbSummaryOf(|window|, ds)))
         == Err(KeyError("avg_nutrients"))
    ensures AnalysedAverages(FromSession(SessionStorage.SummaryOf(window, ds))).Ok?
  {
  }

  /** The database summary's averages as one vector, macros included. */
  function MergedAverages(d: DatabaseStorage.DbNutritionSummary): (v: NutrientVector)
    ensures v.Keys == d.nutrients.Keys + DatabaseStorage.MacroKeys
  {
    d.nutrients["calories" := d.avgCalories]["protein" := d.avgProtein]
      ["carbohydrates" := d.avgCarbohydrates]["fat" := d.avgFat]
  }

  /** Corrected: stop when no day was tracked, and read the database summary's averages
      from the fields it has. */
  function AnalysedAveragesFixed(summary: StoredSummary): (r: Option<NutrientVector>)
    ensures summary.FromSession? ==> (r.None? <==> summary.session.totalDays == 0)
    ensures summary.FromDatabase? ==> (r.None? <==> summary.db.daysWithEntries == 0)
  {
    match summary
    case FromSession(s) => if s.totalDays == 0 then None else Some(s.avgNutrients)
    case FromDatabase(d) => if d.daysWithEntries == 0 then None else Some(MergedAverages(d))
  }

  /** Corrected, both stores stop on the same windows, and for a tracked window the
      database store yields every nutrient's total over the tracked days. */
  lemma FixedAnalysisReadsBothStores(window: seq<string>, ds: seq<NutrientVector>, k: string)
    requires |window| == |ds|
    ensures var fromDb := AnalysedAveragesFixed(FromDatabase(DatabaseStorage.DbSummaryOf(|window|, ds)));
      var fromSession := AnalysedAveragesFixed(FromSession(SessionStorage.SummaryOf(window, ds)));
      (fromDb.None? <==> fromSession.None?) &&
      (fromDb.Some? && (k in KeysOf(ds) || k in DatabaseStorage.MacroKeys) ==>
         k in fromDb.value && fromDb.value[k] == ColumnSum(ds, k) / (CountNonEmpty(ds) as real))
  {
    if CountNonEmpty(ds) > 0 {
      DatabaseStorage.DbAveragesOverTrackedDays(|window|, ds, k);
    }
  }
}
