/**
 * The data statistics calculator: one pass over the named datasets of a data
 * object, counting the features of every dataset that validates and taking 10
 * off a quality score of 100 for every dataset that does not.
 *
 * The data object is given as its `Object.entries` list: (key, dataset)
 * pairs in `Object.entries` order. A JavaScript object has each key once,
 * which the lemmas that need it state as `DistinctKeys`.
 *
 * `featureTypes` starts as a plain `{}`, so `featureTypes["__proto__"] = n`
 * calls the inherited `__proto__` setter, which ignores a number: a valid
 * dataset under that key adds to `totalFeatures` but gets no entry.
 */
module Statistics {
  import opened JsValues
  import opened GeoJson

  /** The object the calculator returns. */
  datatype DataStats = DataStats(totalFeatures: int, featureTypes: map<string, nat>, dataQuality: int)

  /** `dataset.features.length`; read only on datasets that validate, whose
      `features` is an array. */
  function FeatureCount(dataset: Json): nat {
    |Features(dataset)|
  }

  /** The one key whose assignment on a plain object does not create an own property. */
  const ProtoKey := "__proto__"

  /** Each key occurs once, as in the entries of a JavaScript object. */
  predicate DistinctKeys(data: seq<(string, Json)>) {
    forall i, j :: 0 <= i < j < |data| ==> data[i].0 != data[j].0
  }

  /** The number of datasets that fail validation. */
  function InvalidCount(data: seq<(string, Json)>): nat {
    if data == [] then 0
    else InvalidCount(data[..|data| - 1]) + (if ValidateGeoJson(data[|data| - 1].1) then 0 else 1)
  }

  /** The number of features over the datasets that validate. */
  function ValidTotal(data: seq<(string, Json)>): nat {
    if data == [] then 0
    else
      var (key, dataset) := data[|data| - 1];
      ValidTotal(data[..|data| - 1]) + (if ValidateGeoJson(dataset) then FeatureCount(dataset) else 0)
  }

  /** The per-key feature counts of the datasets that validate, written in
      order; the write under `ProtoKey` has no effect. */
  function ValidTypes(data: seq<(string, Json)>): map<string, nat> {
    if data == [] then map[]
    else
      var (key, dataset) := data[|data| - 1];
      var before := ValidTypes(data[..|data| - 1]);
      if ValidateGeoJson(dataset) && key != ProtoKey then before[key := FeatureCount(dataset)] else before
  }

  /** The number of valid datasets under `ProtoKey`, whose count is dropped. */
  function DroppedCount(data: seq<(string, Json)>): nat {
    if data == [] then 0
    else
      var (key, dataset) := data[|data| - 1];
      DroppedCount(data[..|data| - 1]) + (if ValidateGeoJson(dataset) && key == ProtoKey then 1 else 0)
  }

  /** The features of the valid datasets under `ProtoKey`. */
  function DroppedTotal(data: seq<(string, Json)>): nat {
    if data == [] then 0
    else
      var (key, dataset) := data[|data| - 1];
      DroppedTotal(data[..|data| - 1]) + (if ValidateGeoJson(dataset) && key == ProtoKey then FeatureCount(dataset) else 0)
  }

  /** `calculateDataStats`: the loop over the entries updates the three fields
      of `stats` in place, as the source does. */
  method CalculateDataStats(data: seq<(string, Json)>) returns (stats: DataStats)
    ensures stats.totalFeatures == ValidTotal(data)
    ensures stats.featureTypes == ValidTypes(data)
    ensures stats.dataQuality == 100 - 10 * InvalidCount(data)
  {
    stats := DataStats(0, map[], 100);
    for i := 0 to |data|
      invariant stats.totalFeatures == ValidTotal(data[..i])
      invariant stats.featureTypes == ValidTypes(data[..i])
      invariant stats.dataQuality == 100 - 10 * InvalidCount(data[..i])
    {
      var (key, dataset) := data[i];
      assert data[..i + 1][..i] == data[..i];
      if ValidateGeoJson(dataset) {
        stats := stats.(totalFeatures := stats.totalFeatures + FeatureCount(dataset));
        if key != ProtoKey {
          stats := stats.(featureTypes := stats.featureTypes[key := FeatureCount(dataset)]);
        }
      } else {
        stats := stats.(dataQuality := stats.dataQuality - 10);
      }
    }
    assert data[..|data|] == data;
  }

  // ---------------------------------------------------------------------------
  // What the three accumulators mean.

  /** The score is 100 exactly when every dataset validates. */
  lemma {:induction false} FullQualityIffAllValid(data: seq<(string, Json)>)
    ensures InvalidCount(data) == 0 <==> forall i :: 0 <= i < |data| ==> ValidateGeoJson(data[i].1)
  {
    if data != [] {
      var init := data[..|data| - 1];
      FullQualityIffAllValid(init);
      assert forall i :: 0 <= i < |init| ==> init[i] == data[i];
    }
  }

  /** The invalid count never exceeds the number of datasets. */
  lemma {:induction false} InvalidCountBounded(data: seq<(string, Json)>)
    ensures InvalidCount(data) <= |data|
  {
    if data != [] {
      InvalidCountBounded(data[..|data| - 1]);
    }
  }

  /** With exactly one invalid dataset the score is 90. */
  lemma {:induction false} OneInvalidDataset(data: seq<(string, Json)>, bad: nat)
    requires bad < |data| && !ValidateGeoJson(data[bad].1)
    requires forall i :: 0 <= i < |data| && i != bad ==> ValidateGeoJson(data[i].1)
    ensures InvalidCount(data) == 1
    ensures 100 - 10 * InvalidCount(data) == 90
  {
    var init := data[..|data| - 1];
    assert forall i :: 0 <= i < |init| ==> init[i] == data[i];
    if bad == |data| - 1 {
      FullQualityIffAllValid(init);
    } else {
      OneInvalidDataset(init, bad);
    }
  }

  /** When every dataset is invalid, each one costs 10 points; there is no
      lower clamp, so eleven or more invalid datasets make the score negative. */
  lemma {:induction false} NoLowerClamp(data: seq<(string, Json)>)
    requires forall i :: 0 <= i < |data| ==> !ValidateGeoJson(data[i].1)
    ensures InvalidCount(data) == |data|
    ensures |data| >= 11 ==> 100 - 10 * InvalidCount(data) < 0
  {
    if data != [] {
      var init := data[..|data| - 1];
      assert forall i :: 0 <= i < |init| ==> init[i] == data[i];
      NoLowerClamp(init);
    }
  }

  /** `featureTypes` has a key exactly for each dataset that validates, except
      `ProtoKey`, which it never has. */
  lemma {:induction false} ValidTypesKeys(data: seq<(string, Json)>, key: string)
    ensures key in ValidTypes(data) <==>
              key != ProtoKey && exists i :: 0 <= i < |data| && data[i].0 == key && ValidateGeoJson(data[i].1)
  {
    if data != [] {
      var init := data[..|data| - 1];
      ValidTypesKeys(init, key);
      assert forall i :: 0 <= i < |init| ==> init[i] == data[i];
      if key != ProtoKey && exists i :: 0 <= i < |data| && data[i].0 == key && ValidateGeoJson(data[i].1) {
        var i :| 0 <= i < |data| && data[i].0 == key && ValidateGeoJson(data[i].1);
        if i < |init| {
          assert init[i].0 == key && ValidateGeoJson(init[i].1);
        }
      }
    }
  }

  /** With distinct keys, each key of `featureTypes` holds the feature count of its dataset. */
  lemma {:induction false} ValidTypesValues(data: seq<(string, Json)>, i: nat)
    requires DistinctKeys(data)
    requires i < |data| && ValidateGeoJson(data[i].1) && data[i].0 != ProtoKey
    ensures data[i].0 in ValidTypes(data)
    ensures ValidTypes(data)[data[i].0] == FeatureCount(data[i].1)
  {
    var init := data[..|data| - 1];
    assert forall k :: 0 <= k < |init| ==> init[k] == data[k];
    if i < |init| {
      ValidTypesValues(init, i);
    }
  }

  /** With distinct keys, every dataset is a key of `featureTypes`, one of the
      invalid ones, or a valid one under `ProtoKey`, of which there is at most one. */
  lemma {:induction false} KeysPlusInvalidIsAll(data: seq<(string, Json)>)
    requires DistinctKeys(data)
    ensures |ValidTypes(data)| + InvalidCount(data) + DroppedCount(data) == |data|
    ensures DroppedCount(data) <= 1
  {
    if data != [] {
      var init := data[..|data| - 1];
      var (key, dataset) := data[|data| - 1];
      assert forall k :: 0 <= k < |init| ==> init[k] == data[k];
      KeysPlusInvalidIsAll(init);
      ValidTypesKeys(init, key);
      if key == ProtoKey {
        // the earlier keys differ from the last one, so none of them is `ProtoKey`
        assert forall k :: 0 <= k < |init| ==> init[k].0 != ProtoKey;
        NothingDroppedWithoutProtoKey(init);
      }
    }
  }

  // ---------------------------------------------------------------------------
  // `totalFeatures` is the sum of the values in `featureTypes`.

  /** The sum of `m` over the keys in `keys`. */
  ghost function SumOver(m: map<string, nat>, keys: set<string>): int
    requires keys <= m.Keys
  {
    if keys == {} then 0 else var k :| k in keys; m[k] + SumOver(m, keys - {k})
  }

  /** The sum of all the values of a map. */
  ghost function MapSum(m: map<string, nat>): int {
    SumOver(m, m.Keys)
  }

  /** The sum does not depend on the key `SumOver` picks first. */
  lemma {:induction false} SumOverRemove(m: map<string, nat>, keys: set<string>, k: string)
    requires keys <= m.Keys && k in keys
    ensures SumOver(m, keys) == m[k] + SumOver(m, keys - {k})
    decreases keys
  {
    var j :| j in keys && SumOver(m, keys) == m[j] + SumOver(m, keys - {j});
    if j != k {
      SumOverRemove(m, keys - {j}, k);
      SumOverRemove(m, keys - {k}, j);
      assert keys - {j} - {k} == keys - {k} - {j};
    }
  }

  /** The sum only reads the keys it sums over. */
  lemma {:induction false} SumOverAgree(m: map<string, nat>, m': map<string, nat>, keys: set<string>)
    requires keys <= m.Keys && keys <= m'.Keys
    requires forall k :: k in keys ==> m[k] == m'[k]
    ensures SumOver(m, keys) == SumOver(m', keys)
    decreases keys
  {
    if keys != {} {
      var k :| k in keys && SumOver(m, keys) == m[k] + SumOver(m, keys - {k});
      SumOverAgree(m, m', keys - {k});
      SumOverRemove(m', keys, k);
    }
  }

  /** Adding a fresh key adds its value to the sum. */
  lemma MapSumAdd(m: map<string, nat>, k: string, v: nat)
    requires k !in m
    ensures MapSum(m[k := v]) == MapSum(m) + v
  {
    var m' := m[k := v];
    SumOverRemove(m', m'.Keys, k);
    assert m'.Keys - {k} == m.Keys;
    SumOverAgree(m, m', m.Keys);
  }

  /** With distinct keys, `totalFeatures` is the sum of the values in
      `featureTypes` plus the features of a valid dataset under `ProtoKey`. */
  lemma {:induction false} TotalIsSumOfTypes(data: seq<(string, Json)>)
    requires DistinctKeys(data)
    ensures MapSum(ValidTypes(data)) + DroppedTotal(data) == ValidTotal(data)
  {
    if data == [] {
      assert ValidTypes(data) == map[];
    } else {
      var init := data[..|data| - 1];
      var (key, dataset) := data[|data| - 1];
      assert forall k :: 0 <= k < |init| ==> init[k] == data[k];
      TotalIsSumOfTypes(init);
      if ValidateGeoJson(dataset) && key != ProtoKey {
        ValidTypesKeys(init, key);
        MapSumAdd(ValidTypes(init), key, FeatureCount(dataset));
      }
    }
  }

  /** Without a `ProtoKey` entry nothing is dropped, so the counts of
      `featureTypes` account for every valid dataset and every feature. */
  lemma {:induction false} NothingDroppedWithoutProtoKey(data: seq<(string, Json)>)
    requires forall i :: 0 <= i < |data| ==> data[i].0 != ProtoKey
    ensures DroppedCount(data) == 0 && DroppedTotal(data) == 0
  {
    if data != [] {
      var init := data[..|data| - 1];
      assert forall i :: 0 <= i < |init| ==> init[i] == data[i];
      NothingDroppedWithoutProtoKey(init);
    }
  }
}
