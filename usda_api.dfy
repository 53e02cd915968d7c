/** Normalisation of FoodData Central nutrient names into the calculator's nutrient keys,
    and the guard in front of a food search. */
module UsdaApi {
  import opened Wrappers
  import opened Text
  import opened Vectors
  import NutritionCalculator

  /** The renaming table of `get_nutrient_mapping`, in its written order:
      (FoodData Central nutrient name, internal nutrient key). */
  const Renaming: seq<(string, string)> := [
    ("Energy", "calories"),
    ("Protein", "protein"),
    ("Total lipid (fat)", "fat"),
    ("Carbohydrate, by difference", "carbohydrates"),
    ("Fiber, total dietary", "fiber"),
    ("Sugars, total including NLEA", "sugar"),
    ("Sodium, Na", "sodium"),
    ("Calcium, Ca", "calcium"),
    ("Iron, Fe", "iron"),
    ("Magnesium, Mg", "magnesium"),
    ("Phosphorus, P", "phosphorus"),
    ("Potassium, K", "potassium"),
    ("Zinc, Zn", "zinc"),
    ("Copper, Cu", "copper"),
    ("Manganese, Mn", "manganese"),
    ("Selenium, Se", "selenium"),
    ("Vitamin C, total ascorbic acid", "vitamin_c"),
    ("Thiamin", "vitamin_b1"),
    ("Riboflavin", "vitamin_b2"),
    ("Niacin", "vitamin_b3"),
    ("Pantothenic acid", "vitamin_b5"),
    ("Vitamin B-6", "vitamin_b6"),
    ("Folate, total", "folate"),
    ("Vitamin B-12", "vitamin_b12"),
    ("Vitamin A, RAE", "vitamin_a"),
    ("Vitamin E (alpha-tocopherol)", "vitamin_e"),
    ("Vitamin D (D2 + D3)", "vitamin_d"),
    ("Vitamin K (phylloquinone)", "vitamin_k"),
    ("Cholesterol", "cholesterol"),
    ("Fatty acids, total saturated", "saturated_fat"),
    ("Fatty acids, total monounsaturated", "monounsaturated_fat"),
    ("Fatty acids, total polyunsaturated", "polyunsaturated_fat")]

  // The rows compared block by block, eight rows to a block, so that each lemma stays small.
  lemma NamesApart00() ensures forall i, j :: 0 <= i < j < 8 ==> Renaming[i].0 != Renaming[j].0 { }
  lemma KeysApart00() ensures forall i, j :: 0 <= i < j < 8 ==> Renaming[i].1 != Renaming[j].1 { }
  lemma NamesApart01() ensures forall i, j :: 0 <= i < 8 && 8 <= j < 16 ==> Renaming[i].0 != Renaming[j].0 { }
  lemma KeysApart01() ensures forall i, j :: 0 <= i < 8 && 8 <= j < 16 ==> Renaming[i].1 != Renaming[j].1 { }
  lemma NamesApart02() ensures forall i, j :: 0 <= i < 8 && 16 <= j < 24 ==> Renaming[i].0 != Renaming[j].0 { }
  lemma KeysApart02() ensures forall i, j :: 0 <= i < 8 && 16 <= j < 24 ==> Renaming[i].1 != Renaming[j].1 { }
  lemma NamesApart03() ensures forall i, j :: 0 <= i < 8 && 24 <= j < 32 ==> Renaming[i].0 != Renaming[j].0 { }
  lemma KeysApart03() ensures forall i, j :: 0 <= i < 8 && 24 <= j < 32 ==> Renaming[i].1 != Renaming[j].1 { }
  lemma NamesApart11() ensures forall i, j :: 8 <= i < j < 16 ==> Renaming[i].0 != Renaming[j].0 { }
  lemma KeysApart11() ensures forall i, j :: 8 <= i < j < 16 ==> Renaming[i].1 != Renaming[j].1 { }
  lemma NamesApart12() ensures forall i, j :: 8 <= i < 16 && 16 <= j < 24 ==> Renaming[i].0 != Renaming[j].0 { }
  lemma KeysApart12() ensures forall i, j :: 8 <= i < 16 && 16 <= j < 24 ==> Renaming[i].1 != Renaming[j].1 { }
  lemma NamesApart13() ensures forall i, j :: 8 <= i < 16 && 24 <= j < 32 ==> Renaming[i].0 != Renaming[j].0 { }
  lemma KeysApart13() ensures forall i, j :: 8 <= i < 16 && 24 <= j < 32 ==> Renaming[i].1 != Renaming[j].1 { }
  lemma NamesApart22() ensures forall i, j :: 16 <= i < j < 24 ==> Renaming[i].0 != Renaming[j].0 { }
  lemma KeysApart22() ensures forall i, j :: 16 <= i < j < 24 ==> Renaming[i].1 != Renaming[j].1 { }
  lemma NamesApart23() ensures forall i, j :: 16 <= i < 24 && 24 <= j < 32 ==> Renaming[i].0 != Renaming[j].0 { }
  lemma KeysApart23() ensures forall i, j :: 16 <= i < 24 && 24 <= j < 32 ==> Renaming[i].1 != Renaming[j].1 { }
  lemma NamesApart33() ensures forall i, j :: 24 <= i < j < 32 ==> Renaming[i].0 != Renaming[j].0 { }
  lemma KeysApart33() ensures forall i, j :: 24 <= i < j < 32 ==> Renaming[i].1 != Renaming[j].1 { }

  /** No row shares its catalog name or its internal key with another row. */
  lemma RowsDistinct()
    ensures forall i, j :: 0 <= i < j < |Renaming| ==>
      Renaming[i].0 != Renaming[j].0 && Renaming[i].1 != Renaming[j].1
  {
    NamesApart00();
    KeysApart00();
    NamesApart01();
    KeysApart01();
    NamesApart02();
    KeysApart02();
    NamesApart03();
    KeysApart03();
    NamesApart11();
    KeysApart11();
    NamesApart12();
    KeysApart12();
    NamesApart13();
    KeysApart13();
    NamesApart22();
    KeysApart22();
    NamesApart23();
    KeysApart23();
    NamesApart33();
    KeysApart33();
  }

  /** No catalog name is listed twice. */
  lemma CatalogNamesDistinct()
    ensures forall i, j :: 0 <= i < j < |Renaming| ==> Renaming[i].0 != Renaming[j].0
  {
    RowsDistinct();
  }

  /** No internal key is the target of two rows. */
  lemma TargetsDistinct()
    ensures forall i, j :: 0 <= i < j < |Renaming| ==> Renaming[i].1 != Renaming[j].1
  {
    RowsDistinct();
  }

  /** A table whose first components are distinct, as a dictionary. */
  function TableMap(t: seq<(string, string)>): (m: map<string, string>)
    requires forall i, j :: 0 <= i < j < |t| ==> t[i].0 != t[j].0
    ensures forall i :: 0 <= i < |t| ==> t[i].0 in m && m[t[i].0] == t[i].1
    ensures forall n :: n in m ==> exists i :: 0 <= i < |t| && t[i].0 == n
  {
    map i | 0 <= i < |t| :: t[i].0 := t[i].1
  }

  /** The renaming as a dictionary from catalog name to internal key. */
  function NutrientMapping(): (m: map<string, string>)
    ensures forall i :: 0 <= i < |Renaming| ==> Renaming[i].0 in m && m[Renaming[i].0] == Renaming[i].1
    ensures forall n :: n in m ==> exists i :: 0 <= i < |Renaming| && Renaming[i].0 == n
  {
    CatalogNamesDistinct();
    TableMap(Renaming)
  }

  /** A renaming under which no two names share a target. */
  ghost predicate Injective(mapping: map<string, string>)
  {
    forall a, b :: a in mapping && b in mapping && mapping[a] == mapping[b] ==> a == b
  }

  /** No two catalog names are renamed to the same key. */
  lemma MappingInjective()
    ensures Injective(NutrientMapping())
  {
    var m := NutrientMapping();
    forall a, b | a in m && b in m && m[a] == m[b]
      ensures a == b
    {
      var i :| 0 <= i < |Renaming| && Renaming[i].0 == a;
      var j :| 0 <= j < |Renaming| && Renaming[j].0 == b;
      TargetsDistinct();
      assert Renaming[i].1 == Renaming[j].1;
    }
  }

  /** The keys the mapping produces are the calculator's nutrients, plus the two fat
      fractions that the calculator has no daily value for. */
  lemma MappingTargetsKnownNutrients()
    ensures forall n :: n in NutrientMapping() ==>
      NutrientMapping()[n] in NutritionCalculator.DailyValues ||
      NutrientMapping()[n] in {"monounsaturated_fat", "polyunsaturated_fat"}
  {
    forall n | n in NutrientMapping()
      ensures NutrientMapping()[n] in NutritionCalculator.DailyValues ||
        NutrientMapping()[n] in {"monounsaturated_fat", "polyunsaturated_fat"}
    {
      var i :| 0 <= i < |Renaming| && Renaming[i].0 == n;
      TargetsInCalculator(i);
    }
  }

  lemma TargetsInCalculator(i: int)
    requires 0 <= i < |Renaming|
    ensures Renaming[i].1 in NutritionCalculator.DailyValues ||
      Renaming[i].1 in {"monounsaturated_fat", "polyunsaturated_fat"}
  {
  }

  /** The two fat fractions have neither a daily value nor a unit in the calculator. */
  lemma FatFractionsUntracked()
    ensures "monounsaturated_fat" !in NutritionCalculator.DailyValues
    ensures "polyunsaturated_fat" !in NutritionCalculator.DailyValues
    ensures NutritionCalculator.NutrientUnit("monounsaturated_fat") == ""
    ensures NutritionCalculator.NutrientUnit("polyunsaturated_fat") == ""
  {
    MonounsaturatedUncategorised();
    PolyunsaturatedUncategorised();
    Uncategorised("monounsaturated_fat");
    Uncategorised("polyunsaturated_fat");
  }

  lemma MonounsaturatedUncategorised()
    ensures forall c :: 0 <= c < |NutritionCalculator.NutrientCategories| ==>
      "monounsaturated_fat" !in NutritionCalculator.NutrientCategories[c].1
  {
  }

  lemma PolyunsaturatedUncategorised()
    ensures forall c :: 0 <= c < |NutritionCalculator.NutrientCategories| ==>
      "polyunsaturated_fat" !in NutritionCalculator.NutrientCategories[c].1
  {
  }

  /** A name listed in no category has neither a daily value nor a unit. */
  lemma Uncategorised(n: string)
    requires forall c :: 0 <= c < |NutritionCalculator.NutrientCategories| ==>
      n !in NutritionCalculator.NutrientCategories[c].1
    ensures n !in NutritionCalculator.DailyValues && n !in NutritionCalculator.Units
  {
    NutritionCalculator.CategoriesCoverDailyValues();
    NutritionCalculator.UnitsMatchDailyValues();
    assert n !in NutritionCalculator.CategoryMembers(0);
    assert n !in NutritionCalculator.CategoryMembers(1);
    assert n !in NutritionCalculator.CategoryMembers(2);
    assert n !in NutritionCalculator.CategoryMembers(3);
  }

  /** One nutrient of a food-details record: its amount and its unit name. */
  datatype CatalogNutrient = CatalogNutrient(amount: real, unit: string)

  /** The loop of `normalize_nutrients` under a given renaming: every name the renaming
      knows is renamed and keeps only its amount; every other name is dropped. */
  function Rename(mapping: map<string, string>, nutrients: map<string, CatalogNutrient>): (r: NutrientVector)
    requires Injective(mapping)
    ensures forall n :: n in nutrients && n in mapping ==> mapping[n] in r && r[mapping[n]] == nutrients[n].amount
    ensures forall k :: k in r ==> exists n :: n in nutrients && n in mapping && mapping[n] == k
  {
    map n | n in nutrients && n in mapping :: mapping[n] := nutrients[n].amount
  }

  /** `normalize_nutrients`, under the catalog renaming: each catalog row whose name the
      record carries gives the row's key with that nutrient's amount, every key comes from
      such a row, and no two recognised names collapse into one key. */
  function NormalizeNutrients(nutrients: map<string, CatalogNutrient>): (r: NutrientVector)
    ensures forall i :: 0 <= i < |Renaming| && Renaming[i].0 in nutrients ==>
      Renaming[i].1 in r && r[Renaming[i].1] == nutrients[Renaming[i].0].amount
    ensures forall k :: k in r ==>
      exists i :: 0 <= i < |Renaming| && Renaming[i].1 == k && Renaming[i].0 in nutrients
    ensures |r| == |nutrients.Keys * NutrientMapping().Keys|
  {
    MappingInjective();
    RenameKeepsEveryRecognisedName(NutrientMapping(), nutrients);
    Rename(NutrientMapping(), nutrients)
  }

  /** Renamed names never collide: the output has one key per recognised input name. */
  lemma RenameKeepsEveryRecognisedName(mapping: map<string, string>, nutrients: map<string, CatalogNutrient>)
    requires Injective(mapping)
    ensures |Rename(mapping, nutrients)| == |nutrients.Keys * mapping.Keys|
  {
    var names := nutrients.Keys * mapping.Keys;
    assert Rename(mapping, nutrients).Keys == Image(mapping, names);
    ImageOfInjectiveSize(mapping, names);
  }

  ghost function Image(m: map<string, string>, names: set<string>): set<string>
    requires names <= m.Keys
  {
    set n | n in names :: m[n]
  }

  lemma {:induction false} ImageOfInjectiveSize(m: map<string, string>, names: set<string>)
    requires names <= m.Keys
    requires Injective(m)
    ensures |Image(m, names)| == |names|
    decreases |names|
  {
    if names != {} {
      var x :| x in names;
      var rest := names - {x};
      ImageOfInjectiveSize(m, rest);
      assert Image(m, names) == Image(m, rest) + {m[x]};
      assert m[x] !in Image(m, rest);
    }
  }

  /** An empty nutrient record renames to an empty vector. */
  lemma RenameEmpty(mapping: map<string, string>)
    requires Injective(mapping)
    ensures Rename(mapping, map[]) == map[]
  {
  }

  /** A name the renaming does not know contributes nothing, whatever its amount. */
  lemma RenameDropsUnknownName(mapping: map<string, string>, nutrients: map<string, CatalogNutrient>,
                               name: string, v: CatalogNutrient)
    requires Injective(mapping) && name !in mapping
    ensures Rename(mapping, nutrients[name := v]) == Rename(mapping, nutrients - {name})
  {
    var a := Rename(mapping, nutrients[name := v]);
    var b := Rename(mapping, nutrients - {name});
    forall k | k in a ensures k in b && a[k] == b[k] {
      var n :| n in nutrients[name := v] && n in mapping && mapping[n] == k;
      assert n != name;
    }
    forall k | k in b ensures k in a {
      var n :| n in nutrients - {name} && n in mapping && mapping[n] == k;
      assert n in nutrients[name := v];
    }
  }

  /** A record with one recognised name renames to that one renamed amount. */
  lemma RenameSingle(mapping: map<string, string>, name: string, v: CatalogNutrient)
    requires Injective(mapping) && name in mapping
    ensures Rename(mapping, map[name := v]) == map[mapping[name] := v.amount]
  {
    var r := Rename(mapping, map[name := v]);
    forall k | k in r ensures k == mapping[name] {
      var n :| n in map[name := v] && n in mapping && mapping[n] == k;
    }
  }

  /** A record with an energy amount and an unknown nutrient keeps only the calories. */
  lemma NormalizeEnergyExample()
    ensures NormalizeNutrients(map["Energy" := CatalogNutrient(200.0, "KCAL"),
                                   "Unknown Nutrient X" := CatalogNutrient(5.0, "G")])
      == map["calories" := 200.0]
  {
    var m := NutrientMapping();
    var energy := map["Energy" := CatalogNutrient(200.0, "KCAL")];
    MappingInjective();
    UnknownNameUnmapped();
    RenameDropsUnknownName(m, energy, "Unknown Nutrient X", CatalogNutrient(5.0, "G"));
    assert energy - {"Unknown Nutrient X"} == energy;
    EnergyIsCalories();
    RenameSingle(m, "Energy", CatalogNutrient(200.0, "KCAL"));
  }

  lemma EnergyIsCalories()
    ensures "Energy" in NutrientMapping() && NutrientMapping()["Energy"] == "calories"
  {
    assert Renaming[0] == ("Energy", "calories");
  }

  lemma UnknownNameUnmapped()
    ensures "Unknown Nutrient X" !in NutrientMapping()
  {
    forall i | 0 <= i < |Renaming| ensures Renaming[i].0 != "Unknown Nutrient X" { }
  }

  /** The guard of `search_foods`: a query whose stripped form is shorter than two
      characters is refused before any request; otherwise the stripped query is sent. */
  function SearchQuery(query: string): (r: Option<string>)
    ensures r.None? <==> |Strip(query)| < 2
    ensures r.Some? ==> r.value == Strip(query)
  {
    var q := Strip(query);
    if |q| < 2 then None else Some(q)
  }

  /** A query of whitespace only is always refused. */
  lemma BlankQueryRefused(query: string)
    requires forall i :: 0 <= i < |query| ==> IsSpace(query[i])
    ensures SearchQuery(query) == None
  {
  }

  /** The query that is sent is accepted again unchanged. */
  lemma SearchQueryStable(query: string)
    requires SearchQuery(query).Some?
    ensures SearchQuery(SearchQuery(query).value) == SearchQuery(query)
  {
    StripIdempotent(query);
  }
}
