/** Nutrient dictionaries (`Dict[str, float]`) and their key-wise sums, shared by the
    session store and the database store. */
module Vectors {

  /** Nutrient key to amount, in the unit the calculator lists for that key. */
  type NutrientVector = map<string, real>

  /** `v.get(k, 0)`. */
  function Amount(v: NutrientVector, k: string): real {
    if k in v then v[k] else 0.0
  }

  /** `totals[n] = totals.get(n, 0) + amount` done for every item of `v`. */
  function AddVector(t: NutrientVector, v: NutrientVector): (r: NutrientVector)
    ensures r.Keys == t.Keys + v.Keys
  {
    map k | k in t.Keys + v.Keys :: Amount(t, k) + Amount(v, k)
  }

  /** Every key that occurs in some vector of `vs`. */
  function KeysOf(vs: seq<NutrientVector>): set<string> {
    if vs == [] then {} else KeysOf(vs[..|vs| - 1]) + vs[|vs| - 1].Keys
  }

  /** The amounts of `k` summed over `vs`, a vector without `k` counting as zero. */
  function ColumnSum(vs: seq<NutrientVector>, k: string): real {
    if vs == [] then 0.0 else ColumnSum(vs[..|vs| - 1], k) + Amount(vs[|vs| - 1], k)
  }

  /** The key-wise sum of `vs`: the reference definition of a day's totals. */
  function Totals(vs: seq<NutrientVector>): NutrientVector {
    map k | k in KeysOf(vs) :: ColumnSum(vs, k)
  }

  /** How many vectors of `vs` are non-empty (for day totals: how many days were tracked). */
  function CountNonEmpty(vs: seq<NutrientVector>): (n: nat)
    ensures n <= |vs|
  {
    if vs == [] then 0 else CountNonEmpty(vs[..|vs| - 1]) + (if vs[|vs| - 1] != map[] then 1 else 0)
  }

  /** Python's `sum` over a list of numbers. */
  function Sum(xs: seq<real>): real {
    if xs == [] then 0.0 else Sum(xs[..|xs| - 1]) + xs[|xs| - 1]
  }

  /** A key is in the totals exactly when some vector has it. */
  lemma {:induction false} KeysOfMeansSomeVector(vs: seq<NutrientVector>, k: string)
    ensures k in KeysOf(vs) <==> exists i :: 0 <= i < |vs| && k in vs[i]
  {
    if vs != [] {
      var init := vs[..|vs| - 1];
      KeysOfMeansSomeVector(init, k);
      if k in KeysOf(init) {
        var i :| 0 <= i < |init| && k in init[i];
        assert vs[i] == init[i];
      }
      if exists i :: 0 <= i < |vs| && k in vs[i] {
        var i :| 0 <= i < |vs| && k in vs[i];
        if i < |init| { assert init[i] == vs[i]; }
      }
    }
  }

  /** A key no vector has sums to zero. */
  lemma {:induction false} ColumnSumOutsideKeys(vs: seq<NutrientVector>, k: string)
    ensures k !in KeysOf(vs) ==> ColumnSum(vs, k) == 0.0
  {
    if vs != [] {
      ColumnSumOutsideKeys(vs[..|vs| - 1], k);
    }
  }

  /** Adding one more vector to the sum is one AddVector step. */
  lemma TotalsSnoc(vs: seq<NutrientVector>, v: NutrientVector)
    ensures Totals(vs + [v]) == AddVector(Totals(vs), v)
  {
    var w := vs + [v];
    assert w[..|w| - 1] == vs;
    assert KeysOf(w) == KeysOf(vs) + v.Keys;
    forall k | k in KeysOf(w) ensures Totals(w)[k] == AddVector(Totals(vs), v)[k] {
      assert ColumnSum(w, k) == ColumnSum(vs, k) + Amount(v, k);
      ColumnSumOutsideKeys(vs, k);
    }
  }

  /** The totals are empty exactly when every vector is empty. */
  lemma TotalsEmptyIffAllEmpty(vs: seq<NutrientVector>)
    ensures Totals(vs) == map[] <==> forall i :: 0 <= i < |vs| ==> vs[i] == map[]
  {
    if exists i :: 0 <= i < |vs| && vs[i] != map[] {
      var i :| 0 <= i < |vs| && vs[i] != map[];
      var k :| k in vs[i];
      KeysOfMeansSomeVector(vs, k);
      assert k in Totals(vs);
    } else {
      forall k ensures k !in KeysOf(vs) {
        KeysOfMeansSomeVector(vs, k);
      }
      assert Totals(vs).Keys == {};
    }
  }

  /** Sums of non-negative amounts are non-negative. */
  lemma {:induction false} ColumnSumNonNegative(vs: seq<NutrientVector>, k: string)
    requires forall i :: 0 <= i < |vs| ==> Amount(vs[i], k) >= 0.0
    ensures ColumnSum(vs, k) >= 0.0
  {
    if vs != [] {
      ColumnSumNonNegative(vs[..|vs| - 1], k);
    }
  }

  /** The items of `v` whose key is in `keys`. */
  function Restrict(v: NutrientVector, keys: set<string>): NutrientVector
  {
    map k | k in keys && k in v :: v[k]
  }

  /** One step of an accumulation loop: adding the amount of one more key of `v`. */
  lemma AddOneKey(t: NutrientVector, v: NutrientVector, done: set<string>, k: string)
    requires k in v && k !in done
    ensures var before := AddVector(t, Restrict(v, done));
      AddVector(t, Restrict(v, done + {k})) == before[k := Amount(before, k) + v[k]]
  {
    var before := AddVector(t, Restrict(v, done));
    var after := AddVector(t, Restrict(v, done + {k}));
    assert after.Keys == before.Keys + {k};
    forall j | j in after ensures after[j] == before[k := Amount(before, k) + v[k]][j] {
      if j == k {
        assert Amount(Restrict(v, done), k) == 0.0;
      } else {
        assert Amount(Restrict(v, done + {k}), j) == Amount(Restrict(v, done), j);
      }
    }
  }

  /** Before an accumulation loop has visited any key the totals are unchanged. */
  lemma RestrictNone(v: NutrientVector, acc: NutrientVector)
    ensures AddVector(acc, Restrict(v, {})) == acc
  {
    assert Restrict(v, {}) == map[];
  }

  /** A key `v` does not have leaves the restriction unchanged. */
  lemma RestrictSkip(v: NutrientVector, done: set<string>, k: string)
    requires k !in v
    ensures Restrict(v, done + {k}) == Restrict(v, done)
  {
  }

  /** Restricting to a superset of the keys gives the vector back. */
  lemma RestrictAll(v: NutrientVector, keys: set<string>)
    requires v.Keys <= keys
    ensures Restrict(v, keys) == v
  {
  }
}
