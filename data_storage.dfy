/** The session-state store: food entries by date, a food cache and a measurement
    history, all updated in place. */
module SessionStorage {
  import opened Wrappers
  import opened Vectors
  import opened Records

  /** The entry `add_food_entry` appends: the caller's dictionary with its timestamp and
      its entry id (the bucket's length before the append) set. */
  function Stamped(food: FoodData, now: string, id: int): (r: FoodData)
    ensures r.entryId == Some(id) && r.timestamp == Some(now)
    ensures r.(entryId := food.entryId, timestamp := food.timestamp) == food
  {
    food.(timestamp := Some(now), entryId := Some(id))
  }

  /** The survivors of `remove_food_entry`: entries whose id differs from `id`, an entry
      without an id counting as different. */
  function WithoutId(entries: seq<FoodData>, id: int): (r: seq<FoodData>)
    ensures |r| <= |entries|
    ensures forall e :: e in r ==> e in entries && e.entryId != Some(id)
    ensures forall e :: e in entries && e.entryId != Some(id) ==> e in r
  {
    if entries == [] then []
    else
      var last := entries[|entries| - 1];
      WithoutId(entries[..|entries| - 1], id) + (if last.entryId != Some(id) then [last] else [])
  }

  /** Removing keeps the survivors in their original order: removal from a concatenation is
      the concatenation of the removals. */
  lemma {:induction false} WithoutIdKeepsOrder(xs: seq<FoodData>, ys: seq<FoodData>, id: int)
    ensures WithoutId(xs + ys, id) == WithoutId(xs, id) + WithoutId(ys, id)
    decreases |ys|
  {
    if ys == [] {
      assert xs + ys == xs;
    } else {
      var init := ys[..|ys| - 1];
      var last := ys[|ys| - 1];
      var tail := if last.entryId != Some(id) then [last] else [];
      var front := xs + init;
      assert ys == init + [last];
      assert xs + ys == front + [last];
      calc {
        WithoutId(xs + ys, id);
        WithoutId(front + [last], id);
        { WithoutIdSnoc(front, last, id); }
        WithoutId(front, id) + tail;
        { WithoutIdKeepsOrder(xs, init, id); }
        WithoutId(xs, id) + WithoutId(init, id) + tail;
        { WithoutIdSnoc(init, last, id); }
        WithoutId(xs, id) + WithoutId(ys, id);
      }
    }
  }

  lemma WithoutIdSnoc(init: seq<FoodData>, last: FoodData, id: int)
    ensures WithoutId(init + [last], id) == WithoutId(init, id) + (if last.entryId != Some(id) then [last] else [])
  {
    assert (init + [last])[..|init|] == init;
  }

  /** Ids are bucket lengths, so after a removal the next entry can reuse a surviving id. */
  lemma EntryIdsRepeatAfterRemoval(a: FoodData, b: FoodData, c: FoodData, now: string)
    ensures
      var bucket := [Stamped(a, now, 0), Stamped(b, now, 1)];
      var survivors := WithoutId(bucket, 0);
      var next := Stamped(c, now, |survivors|);
      survivors == [Stamped(b, now, 1)] && next.entryId == survivors[0].entryId
  {
    var bucket := [Stamped(a, now, 0), Stamped(b, now, 1)];
    assert bucket[..1] == [Stamped(a, now, 0)];
    assert bucket[..0] == [];
  }

  /** `history[-n:]` once the history is longer than `n`, else the history itself. */
  function KeepLatest<T>(history: seq<T>, n: nat): (r: seq<T>)
    ensures |r| <= n && |r| <= |history|
    ensures |history| <= n ==> r == history
    ensures |history| > n ==> |r| == n
    ensures r == history[|history| - |r|..]
  {
    if |history| > n then history[|history| - n..] else history
  }

  /** Appending and keeping the latest `n > 0` keeps the appended item last. */
  lemma KeepLatestKeepsNewest<T>(history: seq<T>, x: T, n: nat)
    requires n > 0
    ensures var r := KeepLatest(history + [x], n); |r| > 0 && r[|r| - 1] == x
  {
  }

  /** The nutrients of each entry, `{}` where the entry has none. */
  function EntryNutrients(entries: seq<FoodData>): seq<NutrientVector>
  {
    seq(|entries|, i requires 0 <= i < |entries| => entries[i].nutrients.GetOr(map[]))
  }

  /** The amounts of `k` on the days that have it, in day order: the list
      `get_nutrition_summary` collects for `k`. */
  function AmountsOf(ds: seq<NutrientVector>, k: string): seq<real>
  {
    if ds == [] then []
    else AmountsOf(ds[..|ds| - 1], k) + (if k in ds[|ds| - 1] then [ds[|ds| - 1][k]] else [])
  }

  /** The collected amounts add up to the column sum of the days' totals. */
  lemma {:induction false} AmountsOfSum(ds: seq<NutrientVector>, k: string)
    ensures Sum(AmountsOf(ds, k)) == ColumnSum(ds, k)
  {
    if ds != [] {
      var init := ds[..|ds| - 1];
      AmountsOfSum(init, k);
      SumAppend(AmountsOf(init, k), if k in ds[|ds| - 1] then [ds[|ds| - 1][k]] else []);
    }
  }

  lemma {:induction false} SumAppend(xs: seq<real>, ys: seq<real>)
    ensures Sum(xs + ys) == Sum(xs) + Sum(ys)
    decreases |ys|
  {
    if ys != [] {
      var init := ys[..|ys| - 1];
      SumAppend(xs, init);
      assert (xs + ys)[..|xs + ys| - 1] == xs + init;
    } else {
      assert xs + ys == xs;
    }
  }

  /** A nutrient has collected amounts exactly when some day has it, and never more than
      there are tracked days. */
  lemma {:induction false} AmountsOfCount(ds: seq<NutrientVector>, k: string)
    ensures |AmountsOf(ds, k)| > 0 <==> k in KeysOf(ds)
    ensures |AmountsOf(ds, k)| <= CountNonEmpty(ds)
  {
    if ds != [] {
      AmountsOfCount(ds[..|ds| - 1], k);
    }
  }

  /** The per-nutrient averages of `get_nutrition_summary`: each nutrient's total divided
      by the number of days on which it appeared. */
  function Averages(ds: seq<NutrientVector>): (avg: NutrientVector)
    ensures avg.Keys == KeysOf(ds)
  {
    forall k | k in KeysOf(ds) ensures |AmountsOf(ds, k)| > 0 {
      AmountsOfCount(ds, k);
    }
    map k | k in KeysOf(ds) :: Sum(AmountsOf(ds, k)) / (|AmountsOf(ds, k)| as real)
  }

  /** Each average is the nutrient's total over the window divided by the number of days
      on which it appeared, which is at least one and at most the number of tracked days. */
  lemma AverageIsTotalOverDaysWithNutrient(ds: seq<NutrientVector>, k: string)
    requires k in Averages(ds)
    ensures 0 < |AmountsOf(ds, k)| <= CountNonEmpty(ds)
    ensures Averages(ds)[k] == ColumnSum(ds, k) / (|AmountsOf(ds, k)| as real)
  {
    AmountsOfCount(ds, k);
    AmountsOfSum(ds, k);
  }

  /** The dates of the window whose totals are non-empty, in window order. */
  function TrackedDates(window: seq<string>, ds: seq<NutrientVector>): (r: seq<string>)
    requires |window| == |ds|
    ensures |r| == CountNonEmpty(ds)
    ensures forall i :: 0 <= i < |ds| && ds[i] != map[] ==> window[i] in r
    ensures forall d :: d in r ==> exists i :: 0 <= i < |ds| && window[i] == d && ds[i] != map[]
  {
    if ds == [] then []
    else
      TrackedDates(window[..|window| - 1], ds[..|ds| - 1])
        + (if ds[|ds| - 1] != map[] then [window[|window| - 1]] else [])
  }

  /** The positions of the non-empty days, in increasing order. */
  function TrackedIndices(ds: seq<NutrientVector>): (idx: seq<int>)
    ensures |idx| == CountNonEmpty(ds)
    ensures forall j :: 0 <= j < |idx| ==> 0 <= idx[j] < |ds| && ds[idx[j]] != map[]
    ensures forall j, k :: 0 <= j < k < |idx| ==> idx[j] < idx[k]
    ensures forall i :: 0 <= i < |ds| && ds[i] != map[] ==> i in idx
  {
    if ds == [] then []
    else
      TrackedIndices(ds[..|ds| - 1]) + (if ds[|ds| - 1] != map[] then [|ds| - 1] else [])
  }

  /** The tracked dates are the window's dates at the positions of the non-empty days, in
      window order. */
  lemma {:induction false} TrackedDatesInWindowOrder(window: seq<string>, ds: seq<NutrientVector>)
    requires |window| == |ds|
    ensures var idx := TrackedIndices(ds);
      var r := TrackedDates(window, ds);
      |r| == |idx| && forall j :: 0 <= j < |r| ==> r[j] == window[idx[j]]
  {
    if ds != [] {
      var n := |ds| - 1;
      TrackedDatesInWindowOrder(window[..n], ds[..n]);
      var idx0, r0 := TrackedIndices(ds[..n]), TrackedDates(window[..n], ds[..n]);
      var tail, dates := if ds[n] != map[] then [n] else [], if ds[n] != map[] then [window[n]] else [];
      assert TrackedIndices(ds) == idx0 + tail;
      assert TrackedDates(window, ds) == r0 + dates;
      var idx, r := idx0 + tail, r0 + dates;
      forall j | 0 <= j < |r| ensures r[j] == window[idx[j]] {
        if j < |r0| {
          assert r[j] == r0[j] && idx[j] == idx0[j];
          assert 0 <= idx0[j] < n;
          assert window[..n][idx0[j]] == window[idx0[j]];
        }
      }
    }
  }

  /** The summary dictionary: `total_days`, `avg_nutrients` and `dates_tracked`. */
  datatype NutritionSummary = NutritionSummary(
    totalDays: int,
    avgNutrients: NutrientVector,
    datesTracked: seq<string>)

  /** The summary of a window whose days have totals `ds`. */
  function SummaryOf(window: seq<string>, ds: seq<NutrientVector>): (s: NutritionSummary)
    requires |window| == |ds|
    ensures s.totalDays == |s.datesTracked| <= |window|
    ensures forall i :: 0 <= i < |ds| && ds[i] != map[] ==> window[i] in s.datesTracked
    ensures forall d :: d in s.datesTracked ==> exists i :: 0 <= i < |ds| && window[i] == d && ds[i] != map[]
    ensures s.avgNutrients.Keys == KeysOf(ds)
  {
    NutritionSummary(CountNonEmpty(ds), Averages(ds), TrackedDates(window, ds))
  }

  /** A seven-day window in which only the second and fifth days have entries. */
  const SampleWindow: seq<string> := ["d1", "d2", "d3", "d4", "d5", "d6", "d7"]
  const SampleDays: seq<NutrientVector> :=
    [map[], map["calories" := 100.0], map[], map[], map["calories" := 150.0], map[], map[]]

  /** What one more day of the sample adds to each figure of the summary. */
  lemma SampleStep(i: int)
    requires 0 <= i < 7
    ensures KeysOf(SampleDays[..i + 1]) == KeysOf(SampleDays[..i]) + SampleDays[i].Keys
    ensures AmountsOf(SampleDays[..i + 1], "calories") == AmountsOf(SampleDays[..i], "calories") +
      (if "calories" in SampleDays[i] then [SampleDays[i]["calories"]] else [])
    ensures CountNonEmpty(SampleDays[..i + 1]) == CountNonEmpty(SampleDays[..i]) + (if SampleDays[i] != map[] then 1 else 0)
    ensures TrackedDates(SampleWindow[..i + 1], SampleDays[..i + 1])
      == TrackedDates(SampleWindow[..i], SampleDays[..i]) + (if SampleDays[i] != map[] then [SampleWindow[i]] else [])
  {
    TrackedStep(SampleWindow, SampleDays, i);
    assert SampleDays[..i + 1][..i] == SampleDays[..i];
  }

  /** What the first `n` sample days give: their keys, their calories, how many are tracked
      and their dates. */
  predicate SampleState(n: int, keys: set<string>, amounts: seq<real>, count: int, dates: seq<string>)
    requires 0 <= n <= 7
  {
    KeysOf(SampleDays[..n]) == keys && AmountsOf(SampleDays[..n], "calories") == amounts &&
    CountNonEmpty(SampleDays[..n]) == count && TrackedDates(SampleWindow[..n], SampleDays[..n]) == dates
  }

  lemma SampleFirstDays()
    ensures SampleState(2, {"calories"}, [100.0], 1, ["d2"])
  {
    assert SampleDays[..0] == [] && SampleWindow[..0] == [];
    SampleStep(0);
    assert SampleState(1, {}, [], 0, []);
    SampleStep(1);
  }

  lemma SampleFourDays()
    ensures SampleState(4, {"calories"}, [100.0], 1, ["d2"])
  {
    SampleFirstDays();
    SampleStep(2);
    assert SampleState(3, {"calories"}, [100.0], 1, ["d2"]);
    SampleStep(3);
  }

  lemma SampleFiveDays()
    ensures SampleState(5, {"calories"}, [100.0, 150.0], 2, ["d2", "d5"])
  {
    SampleFourDays();
    SampleStep(4);
  }

  lemma SampleAllDays()
    ensures SampleState(7, {"calories"}, [100.0, 150.0], 2, ["d2", "d5"])
  {
    SampleFiveDays();
    SampleStep(5);
    assert SampleState(6, {"calories"}, [100.0, 150.0], 2, ["d2", "d5"]);
    SampleStep(6);
  }

  /** Two tracked days out of seven, with 100 and 150 calories: the average is 125 and
      two days count, not seven. */
  lemma SummaryTwoOfSevenDays()
    ensures SummaryOf(SampleWindow, SampleDays) == NutritionSummary(2, map["calories" := 125.0], ["d2", "d5"])
  {
    SampleAllDays();
    assert SampleDays[..7] == SampleDays && SampleWindow[..7] == SampleWindow;
    assert Sum([100.0, 150.0]) == 250.0 by {
      assert [100.0, 150.0][..1] == [100.0];
      assert [100.0][..0] == [];
    }
  }

  /** Two tracked days, with iron logged on the first only. */
  const TwoDays: seq<NutrientVector> := [map["calories" := 100.0, "iron" := 4.0], map["calories" := 200.0]]

  lemma TwoDaysAmounts()
    ensures KeysOf(TwoDays) == {"calories", "iron"} && CountNonEmpty(TwoDays) == 2
    ensures AmountsOf(TwoDays, "calories") == [100.0, 200.0] && AmountsOf(TwoDays, "iron") == [4.0]
  {
    assert TwoDays[..1] == [TwoDays[0]] && TwoDays[..1][..0] == [];
  }

  /** A nutrient logged on one of two tracked days is averaged over that one day. */
  lemma AverageCountsOnlyDaysWithNutrient()
    ensures Averages(TwoDays) == map["calories" := 150.0, "iron" := 4.0]
  {
    TwoDaysAmounts();
    assert Sum([100.0, 200.0]) == 300.0 by {
      assert [100.0, 200.0][..1] == [100.0];
      assert [100.0][..0] == [];
    }
    assert Sum([4.0]) == 4.0 by {
      assert [4.0][..0] == [];
    }
    var avg := Averages(TwoDays);
    assert avg.Keys == {"calories", "iron"};
    assert avg["calories"] == 150.0 && avg["iron"] == 4.0;
    var expected := map["calories" := 150.0, "iron" := 4.0];
    assert expected.Keys == avg.Keys;
    forall k | k in avg ensures avg[k] == expected[k] {
      assert k == "calories" || k == "iron";
    }
  }

  /** The measurement `add_measurement` appends: the caller's record with a date (today's
      when it has none) and a timestamp. */
  function StampedMeasurement(m: Measurement, today: string, now: string): (r: Measurement)
    ensures r.date.Some? && (m.date.Some? ==> r.date == m.date) && (m.date.None? ==> r.date == Some(today))
    ensures r.timestamp == Some(now)
    ensures r.(date := m.date, timestamp := m.timestamp) == m
  {
    m.(date := Some(m.date.GetOr(today)), timestamp := Some(now))
  }

  /** `daily_entries.update(imported)`, the imported pairs applied in order. */
  function UpdateAll(buckets: map<string, seq<FoodData>>, imported: seq<(string, seq<FoodData>)>)
    : (r: map<string, seq<FoodData>>)
    ensures r.Keys == buckets.Keys + DatesOf(imported)
  {
    if imported == [] then buckets
    else
      var last := imported[|imported| - 1];
      UpdateAll(buckets, imported[..|imported| - 1])[last.0 := last.1]
  }

  /** The dates an import mentions. */
  function DatesOf(imported: seq<(string, seq<FoodData>)>): set<string>
  {
    set i | 0 <= i < |imported| :: imported[i].0
  }

  /** The key order after the update: dates new to the dictionary are appended in the
      order they are imported; known dates keep their place. */
  function AppendNewDates(dates: seq<string>, imported: seq<(string, seq<FoodData>)>): seq<string>
  {
    if imported == [] then dates
    else
      var before := AppendNewDates(dates, imported[..|imported| - 1]);
      var d := imported[|imported| - 1].0;
      if d in before then before else before + [d]
  }

  /** An imported date's bucket is replaced, not merged: what the store held for that date
      before the import does not matter. */
  lemma {:induction false} ImportReplacesBuckets(b1: map<string, seq<FoodData>>, b2: map<string, seq<FoodData>>,
                                                  imported: seq<(string, seq<FoodData>)>, d: string)
    requires d in DatesOf(imported)
    ensures UpdateAll(b1, imported)[d] == UpdateAll(b2, imported)[d]
  {
    var init := imported[..|imported| - 1];
    if imported[|imported| - 1].0 != d {
      var i :| 0 <= i < |imported| && imported[i].0 == d;
      assert init[i] == imported[i];
      ImportReplacesBuckets(b1, b2, init, d);
    }
  }

  /** An imported date's bucket is the one its last pair in the import carries. */
  lemma {:induction false} ImportSetsBucket(buckets: map<string, seq<FoodData>>,
                                             imported: seq<(string, seq<FoodData>)>, i: int)
    requires 0 <= i < |imported|
    requires forall j :: i < j < |imported| ==> imported[j].0 != imported[i].0
    ensures UpdateAll(buckets, imported)[imported[i].0] == imported[i].1
  {
    if i < |imported| - 1 {
      var init := imported[..|imported| - 1];
      assert init[i] == imported[i];
      forall j | i < j < |init| ensures init[j].0 != init[i].0 {
        assert init[j] == imported[j];
      }
      ImportSetsBucket(buckets, init, i);
    }
  }

  /** A date the import does not mention keeps its bucket. */
  lemma {:induction false} ImportKeepsOtherBuckets(buckets: map<string, seq<FoodData>>,
                                                    imported: seq<(string, seq<FoodData>)>, d: string)
    requires d in buckets && d !in DatesOf(imported)
    ensures UpdateAll(buckets, imported)[d] == buckets[d]
  {
    if imported != [] {
      var init := imported[..|imported| - 1];
      assert DatesOf(init) <= DatesOf(imported) by {
        forall e | e in DatesOf(init) ensures e in DatesOf(imported) {
          var i :| 0 <= i < |init| && init[i].0 == e;
          assert imported[i] == init[i];
        }
      }
      ImportKeepsOtherBuckets(buckets, init, d);
    }
  }

  /** Appending new dates keeps the dates distinct and lists exactly the old dates and the
      imported ones. */
  lemma {:induction false} AppendNewDatesValid(dates: seq<string>, imported: seq<(string, seq<FoodData>)>)
    requires forall i, j :: 0 <= i < j < |dates| ==> dates[i] != dates[j]
    ensures var r := AppendNewDates(dates, imported);
      (forall i, j :: 0 <= i < j < |r| ==> r[i] != r[j]) &&
      (forall d :: d in r <==> d in dates || d in DatesOf(imported))
  {
    if imported != [] {
      var init := imported[..|imported| - 1];
      AppendNewDatesValid(dates, init);
      assert DatesOf(imported) == DatesOf(init) + {imported[|imported| - 1].0} by {
        forall e | e in DatesOf(imported) ensures e in DatesOf(init) + {imported[|imported| - 1].0} {
          var i :| 0 <= i < |imported| && imported[i].0 == e;
          if i < |init| { assert init[i] == imported[i]; }
        }
        forall e | e in DatesOf(init) ensures e in DatesOf(imported) {
          var i :| 0 <= i < |init| && init[i].0 == e;
          assert imported[i] == init[i];
        }
      }
    }
  }

  /** The per-nutrient lists `get_nutrition_summary` has collected after the days `ds`. */
  function AmountLists(ds: seq<NutrientVector>): map<string, seq<real>>
  {
    map k | k in KeysOf(ds) :: AmountsOf(ds, k)
  }

  /** The lists part-way through one day `v`: the keys in `done` have had their amount
      appended. */
  function PartLists(ds: seq<NutrientVector>, v: NutrientVector, done: set<string>): map<string, seq<real>>
    requires done <= v.Keys
  {
    map k | k in KeysOf(ds) + done :: AmountsOf(ds, k) + (if k in done then [v[k]] else [])
  }

  /** One step of the inner loop: one more nutrient of the day appended to its list. */
  lemma PartListsStep(ds: seq<NutrientVector>, v: NutrientVector, done: set<string>, k: string)
    requires done <= v.Keys && k in v && k !in done
    ensures var before := PartLists(ds, v, done);
      PartLists(ds, v, done + {k}) == before[k := (if k in before then before[k] else []) + [v[k]]]
  {
    var before := PartLists(ds, v, done);
    var after := PartLists(ds, v, done + {k});
    AmountsOfCount(ds, k);
    if k !in before {
      assert AmountsOf(ds, k) == [];
    }
    forall j | j in after ensures after[j] == before[k := (if k in before then before[k] else []) + [v[k]]][j] {
      if j != k {
        AmountsOfCount(ds, j);
      }
    }
  }

  /** The lists before a day and after all of its nutrients are the lists of one more day. */
  lemma PartListsDone(ds: seq<NutrientVector>, v: NutrientVector)
    ensures PartLists(ds, v, {}) == AmountLists(ds)
    ensures PartLists(ds, v, v.Keys) == AmountLists(ds + [v])
  {
    var w := ds + [v];
    assert w[..|w| - 1] == ds;
    assert KeysOf(w) == KeysOf(ds) + v.Keys;
    forall k | k in KeysOf(ds) ensures PartLists(ds, v, {})[k] == AmountLists(ds)[k] {
      assert AmountsOf(ds, k) + [] == AmountsOf(ds, k);
    }
  }

  /** The averaging loop's map once every nutrient has been divided. */
  lemma ListsAverage(ds: seq<NutrientVector>, avg: NutrientVector)
    requires avg.Keys == KeysOf(ds)
    requires forall k :: k in avg ==>
      |AmountsOf(ds, k)| > 0 && avg[k] == Sum(AmountsOf(ds, k)) / (|AmountsOf(ds, k)| as real)
    ensures avg == Averages(ds)
  {
  }

  /** The inner loop of `get_daily_totals`: every item of one entry's nutrients added to
      the running totals. */
  method AddInto(totals: NutrientVector, nutrients: NutrientVector) returns (t: NutrientVector)
    ensures t == AddVector(totals, nutrients)
  {
    var remaining := nutrients.Keys;
    t := totals;
    assert nutrients.Keys - remaining == {};
    RestrictNone(nutrients, totals);
    while remaining != {}
      invariant remaining <= nutrients.Keys
      invariant t == AddVector(totals, Restrict(nutrients, nutrients.Keys - remaining))
      decreases |remaining|
    {
      var k :| k in remaining;
      AddOneKey(totals, nutrients, nutrients.Keys - remaining, k);
      assert nutrients.Keys - (remaining - {k}) == (nutrients.Keys - remaining) + {k};
      t := t[k := Amount(t, k) + nutrients[k]];
      remaining := remaining - {k};
    }
    assert nutrients.Keys - remaining == nutrients.Keys;
    RestrictAll(nutrients, nutrients.Keys);
    assert Restrict(nutrients, nutrients.Keys - remaining) == nutrients;
    assert t == AddVector(totals, nutrients);
  }

  /** One more day of the window in the summary loop. */
  lemma TrackedStep(window: seq<string>, ds: seq<NutrientVector>, i: int)
    requires |window| == |ds| && 0 <= i < |ds|
    ensures CountNonEmpty(ds[..i + 1]) == CountNonEmpty(ds[..i]) + (if ds[i] != map[] then 1 else 0)
    ensures TrackedDates(window[..i + 1], ds[..i + 1])
      == TrackedDates(window[..i], ds[..i]) + (if ds[i] != map[] then [window[i]] else [])
    ensures ds[..i + 1] == ds[..i] + [ds[i]]
  {
    PrefixSnoc(ds, i);
    PrefixSnoc(window, i);
    assert ds[..i + 1][..i] == ds[..i] && window[..i + 1][..i] == window[..i];
  }

  lemma PrefixSnoc<T>(s: seq<T>, i: int)
    requires 0 <= i < |s|
    ensures s[..i + 1] == s[..i] + [s[i]]
  {
  }

  /** The session store: `daily_entries` (with its key order), `food_database` and
      `measurements_history`. */
  class DataStorage {
    var dailyEntries: map<string, seq<FoodData>>
    var entryDates: seq<string>
    var foodDatabase: map<int, FoodData>
    var measurementsHistory: seq<Measurement>

    /** `entryDates` lists every date key once, in insertion order. */
    ghost predicate Valid()
      reads this
    {
      (forall i, j :: 0 <= i < j < |entryDates| ==> entryDates[i] != entryDates[j]) &&
      (forall d :: d in dailyEntries <==> d in entryDates)
    }

    /** A fresh session: every collection empty. */
    constructor ()
      ensures Valid()
      ensures dailyEntries == map[] && entryDates == [] && foodDatabase == map[] && measurementsHistory == []
    {
      dailyEntries := map[];
      entryDates := [];
      foodDatabase := map[];
      measurementsHistory := [];
    }

    /** `get_daily_entries`: the date's bucket, `[]` for an unknown date. */
    function GetDailyEntries(date: string): (r: seq<FoodData>)
      reads this
      ensures date !in dailyEntries ==> r == []
      ensures date in dailyEntries ==> r == dailyEntries[date]
    {
      if date in dailyEntries then dailyEntries[date] else []
    }

    /** `add_food_entry`: the date's bucket is created when absent and the stamped entry is
        appended with the bucket's former length as its id; nothing else changes. */
    method AddFoodEntry(date: string, food: FoodData, now: string)
      requires Valid()
      modifies this
      ensures Valid()
      ensures dailyEntries ==
        old(dailyEntries)[date := old(GetDailyEntries(date)) + [Stamped(food, now, |old(GetDailyEntries(date))|)]]
      ensures entryDates == if date in old(dailyEntries) then old(entryDates) else old(entryDates) + [date]
      ensures foodDatabase == old(foodDatabase) && measurementsHistory == old(measurementsHistory)
    {
      if date !in dailyEntries {
        dailyEntries := dailyEntries[date := []];
        entryDates := entryDates + [date];
      }
      var bucket := dailyEntries[date];
      var entry := Stamped(food, now, |bucket|);
      dailyEntries := dailyEntries[date := bucket + [entry]];
    }

    /** `remove_food_entry`: every entry of the date carrying `id` goes, the survivors keep
        their order; an unknown date is left alone and the date stays listed. */
    method RemoveFoodEntry(date: string, id: int)
      requires Valid()
      modifies this
      ensures Valid()
      ensures dailyEntries ==
        if date in old(dailyEntries) then old(dailyEntries)[date := WithoutId(old(dailyEntries)[date], id)]
        else old(dailyEntries)
      ensures entryDates == old(entryDates)
      ensures foodDatabase == old(foodDatabase) && measurementsHistory == old(measurementsHistory)
    {
      if date in dailyEntries {
        dailyEntries := dailyEntries[date := WithoutId(dailyEntries[date], id)];
      }
    }

    /** `get_daily_totals`: the key-wise sum of the nutrients of the date's entries. */
    method GetDailyTotals(date: string) returns (totals: NutrientVector)
      ensures totals == Totals(EntryNutrients(GetDailyEntries(date)))
    {
      var entries := GetDailyEntries(date);
      var vs := EntryNutrients(entries);
      totals := map[];
      var i := 0;
      while i < |entries|
        invariant 0 <= i <= |entries|
        invariant totals == Totals(vs[..i])
      {
        var nutrients := entries[i].nutrients.GetOr(map[]);
        var t := AddInto(totals, nutrients);
        assert vs[i] == nutrients;
        PrefixSnoc(vs, i);
        TotalsSnoc(vs[..i], nutrients);
        assert t == Totals(vs[..i + 1]);
        totals := t;
        i := i + 1;
      }
      assert vs[..i] == vs;
    }

    /** `cache_food_data`: the food is stored under its id, replacing any earlier one. */
    method CacheFoodData(fdcId: int, food: FoodData)
      requires Valid()
      modifies this
      ensures Valid()
      ensures foodDatabase == old(foodDatabase)[fdcId := food]
      ensures dailyEntries == old(dailyEntries) && entryDates == old(entryDates)
      ensures measurementsHistory == old(measurementsHistory)
    {
      foodDatabase := foodDatabase[fdcId := food];
    }

    /** `get_cached_food_data`: the cached food, None when the id was never cached. */
    function GetCachedFoodData(fdcId: int): (r: Option<FoodData>)
      reads this
      ensures r.Some? <==> fdcId in foodDatabase
      ensures r.Some? ==> r.value == foodDatabase[fdcId]
    {
      if fdcId in foodDatabase then Some(foodDatabase[fdcId]) else None
    }

    /** `add_measurement`: the stamped record is appended and only the latest 100 are kept,
        so the history never exceeds 100 and the new record is the latest one. */
    method AddMeasurement(m: Measurement, today: string, now: string)
      requires Valid()
      modifies this
      ensures Valid()
      ensures measurementsHistory == KeepLatest(old(measurementsHistory) + [StampedMeasurement(m, today, now)], 100)
      ensures |measurementsHistory| <= 100
      ensures GetLatestMeasurement() == Some(StampedMeasurement(m, today, now))
      ensures dailyEntries == old(dailyEntries) && entryDates == old(entryDates)
      ensures foodDatabase == old(foodDatabase)
    {
      var stamped := StampedMeasurement(m, today, now);
      measurementsHistory := measurementsHistory + [stamped];
      if |measurementsHistory| > 100 {
        measurementsHistory := measurementsHistory[|measurementsHistory| - 100..];
      }
      KeepLatestKeepsNewest(old(measurementsHistory), stamped, 100);
    }

    /** `get_measurements_history`: the records oldest first, the latest one last. */
    function GetMeasurementsHistory(): (r: seq<Measurement>)
      reads this
      ensures r == [] <==> GetLatestMeasurement().None?
      ensures r != [] ==> GetLatestMeasurement() == Some(r[|r| - 1])
    {
      measurementsHistory
    }

    /** `get_latest_measurement`: the last record, None for an empty history. */
    function GetLatestMeasurement(): (r: Option<Measurement>)
      reads this
      ensures r.None? <==> measurementsHistory == []
      ensures r.Some? ==> r.value == measurementsHistory[|measurementsHistory| - 1]
    {
      if measurementsHistory != [] then Some(measurementsHistory[|measurementsHistory| - 1]) else None
    }

    /** `get_dates_with_entries`: every date key once, in insertion order, including dates
        whose entries have all been removed. */
    function GetDatesWithEntries(): (r: seq<string>)
      requires Valid()
      reads this
      ensures forall d :: d in r <==> d in dailyEntries
      ensures forall i, j :: 0 <= i < j < |r| ==> r[i] != r[j]
    {
      entryDates
    }

    /** `import_data`: imported buckets overwrite whole dates, in import order; imported
        measurements are appended without the 100-record cap. */
    method ImportData(entries: Option<seq<(string, seq<FoodData>)>>, measurements: Option<seq<Measurement>>)
      requires Valid()
      modifies this
      ensures Valid()
      ensures entries.None? ==> dailyEntries == old(dailyEntries) && entryDates == old(entryDates)
      ensures entries.Some? ==> dailyEntries == UpdateAll(old(dailyEntries), entries.value)
      ensures entries.Some? ==> entryDates == AppendNewDates(old(entryDates), entries.value)
      ensures measurementsHistory == old(measurementsHistory) + measurements.GetOr([])
      ensures foodDatabase == old(foodDatabase)
    {
      if entries.Some? {
        var imported := entries.value;
        var i := 0;
        while i < |imported|
          invariant 0 <= i <= |imported|
          invariant dailyEntries == UpdateAll(old(dailyEntries), imported[..i])
          invariant entryDates == AppendNewDates(old(entryDates), imported[..i])
          invariant Valid()
          invariant measurementsHistory == old(measurementsHistory) && foodDatabase == old(foodDatabase)
        {
          var (date, bucket) := imported[i];
          PrefixSnoc(imported, i);
          assert imported[..i + 1][..i] == imported[..i];
          if date !in dailyEntries {
            entryDates := entryDates + [date];
          }
          dailyEntries := dailyEntries[date := bucket];
          i := i + 1;
        }
        assert imported[..i] == imported;
      }
      if measurements.Some? {
        measurementsHistory := measurementsHistory + measurements.value;
      }
    }

    /** `clear_all_data`: every collection emptied. */
    method ClearAllData()
      modifies this
      ensures Valid()
      ensures dailyEntries == map[] && entryDates == [] && foodDatabase == map[] && measurementsHistory == []
    {
      dailyEntries := map[];
      entryDates := [];
      foodDatabase := map[];
      measurementsHistory := [];
    }

    /** The totals of each date of the window. */
    function DayTotals(window: seq<string>): (ds: seq<NutrientVector>)
      reads this
      ensures |ds| == |window|
    {
      seq(|window|, i requires 0 <= i < |window| reads this => Totals(EntryNutrients(GetDailyEntries(window[i]))))
    }

    /** `get_nutrition_summary` over the dates of the window, oldest first: tracked days are
        those with non-empty totals, and each nutrient is averaged over the days it appeared. */
    method GetNutritionSummary(window: seq<string>) returns (summary: NutritionSummary)
      ensures summary == SummaryOf(window, DayTotals(window))
    {
      ghost var ds := DayTotals(window);
      var totalDays := 0;
      var datesTracked: seq<string> := [];
      var lists: map<string, seq<real>> := map[];
      var i := 0;
      while i < |window|
        invariant 0 <= i <= |window|
        invariant totalDays == CountNonEmpty(ds[..i])
        invariant datesTracked == TrackedDates(window[..i], ds[..i])
        invariant lists == AmountLists(ds[..i])
      {
        var dailyTotals := GetDailyTotals(window[i]);
        assert dailyTotals == ds[i];
        TrackedStep(window, ds, i);
        if dailyTotals != map[] {
          totalDays := totalDays + 1;
          datesTracked := datesTracked + [window[i]];
        }
        lists := CollectAmounts(lists, ds[..i], dailyTotals);
        i := i + 1;
      }
      assert ds[..i] == ds && window[..i] == window;
      var avg := AverageLists(lists, ds);
      summary := NutritionSummary(totalDays, avg, datesTracked);
    }
  }

  /** The inner loop of `get_nutrition_summary`: each nutrient of one day's totals appended
      to its list, the list created when the nutrient is new. */
  method CollectAmounts(lists: map<string, seq<real>>, ghost ds: seq<NutrientVector>, day: NutrientVector)
    returns (r: map<string, seq<real>>)
    requires lists == AmountLists(ds)
    ensures r == AmountLists(ds + [day])
  {
    var remaining := day.Keys;
    ghost var done: set<string> := {};
    r := lists;
    PartListsDone(ds, day);
    while remaining != {}
      invariant done + remaining == day.Keys && done !! remaining
      invariant r == PartLists(ds, day, done)
      decreases |remaining|
    {
      var k :| k in remaining;
      PartListsStep(ds, day, done, k);
      r := r[k := (if k in r then r[k] else []) + [day[k]]];
      remaining := remaining - {k};
      done := done + {k};
    }
  }

  /** The closing loop of `get_nutrition_summary`: every list replaced by its mean. */
  method AverageLists(lists: map<string, seq<real>>, ghost ds: seq<NutrientVector>) returns (avg: NutrientVector)
    requires lists == AmountLists(ds)
    ensures avg == Averages(ds)
  {
    forall k | k in lists ensures |lists[k]| > 0 {
      AmountsOfCount(ds, k);
    }
    avg := map[];
    var remaining := lists.Keys;
    while remaining != {}
      invariant remaining <= lists.Keys
      invariant avg.Keys == lists.Keys - remaining
      invariant forall k :: k in avg ==> avg[k] == Sum(lists[k]) / (|lists[k]| as real)
      decreases |remaining|
    {
      var k :| k in remaining;
      avg := avg[k := Sum(lists[k]) / (|lists[k]| as real)];
      remaining := remaining - {k};
    }
    ListsAverage(ds, avg);
  }
}
