/**
 * The GeoJSON validator of the data module: a FeatureCollection must have
 * `type` "FeatureCollection" and an array `features`, and each feature must
 * have `type` "Feature", a truthy `geometry` and truthy `properties`
 * (the top-level members of sections 3.2 and 3.3 of RFC 7946).
 *
 * `ValidateGeoJson` is the validator with every element of `features` read
 * safely; `ValidateGeoJsonAsWritten` is the code as written, whose per-feature
 * test reads `feature.type` and so throws on a null or undefined element.
 */
module GeoJson {
  import opened JsValues

  /** The test `every` applies to one feature, reading its properties safely. */
  predicate FeatureOk(f: Json) {
    Get(f, "type") == Str("Feature") && Truthy(Get(f, "geometry")) && Truthy(Get(f, "properties"))
  }

  /** A truthy object (arrays included) whose `type` is "FeatureCollection"
      and whose `features` is an array. */
  predicate HasCollectionShape(data: Json) {
    Truthy(data) && TypeOf(data) == "object"
    && Get(data, "type") == Str("FeatureCollection") && Get(data, "features").Arr?
  }

  /** The elements of `data.features` when it is an array, and none otherwise. */
  function Features(data: Json): seq<Json> {
    match Get(data, "features")
    case Arr(items) => items
    case _ => []
  }

  /** `features.every(test)`, scanning left to right with the safe test. */
  function EveryFeatureOk(fs: seq<Json>): (ok: bool)
    ensures ok <==> forall i :: 0 <= i < |fs| ==> FeatureOk(fs[i])
  {
    if fs == [] then true else FeatureOk(fs[0]) && EveryFeatureOk(fs[1..])
  }

  /** The validator, total over all values. */
  function ValidateGeoJson(data: Json): (ok: bool)
    // a falsy value, or anything that is not an object, is rejected first
    ensures !Truthy(data) || TypeOf(data) != "object" ==> !ok
    // a wrong `type` or a non-array `features` is rejected next
    ensures Get(data, "type") != Str("FeatureCollection") || !Get(data, "features").Arr? ==> !ok
    // so an array, which has no `type`, never validates: only a plain object can
    ensures ok ==> data.Obj?
    // with a valid top level, the answer is whether every feature passes
    ensures HasCollectionShape(data) ==>
              (ok <==> forall i :: 0 <= i < |Features(data)| ==> FeatureOk(Features(data)[i]))
    // in particular an empty `features` array validates
    ensures HasCollectionShape(data) && Features(data) == [] ==> ok
  {
    if !Truthy(data) || TypeOf(data) != "object" then false
    else if Get(data, "type") != Str("FeatureCollection") || !Get(data, "features").Arr? then false
    else
      assert Features(data) == Get(data, "features").items;
      EveryFeatureOk(Get(data, "features").items)
  }

  /** `features.every(test)` as written: the test reads `feature.type`, which
      throws TypeError on a null or undefined element; `every` stops at the
      first element whose test is false, so only a nullish element reached
      before any failing one throws. */
  function EveryFeatureAsWritten(fs: seq<Json>): (r: Completion<bool>)
    ensures r.Normal? ==> (r.value <==> forall i :: 0 <= i < |fs| ==> FeatureOk(fs[i]))
    ensures r.Threw? <==>
              exists i :: 0 <= i < |fs| && IsNullish(fs[i]) && forall j :: 0 <= j < i ==> FeatureOk(fs[j])
  {
    if fs == [] then Normal(true)
    else if IsNullish(fs[0]) then
      Threw(TypeError)
    else if !FeatureOk(fs[0]) then Normal(false)
    else
      var r := EveryFeatureAsWritten(fs[1..]);
      assert r.Threw? ==> exists i :: 0 <= i < |fs| && IsNullish(fs[i]) && forall j :: 0 <= j < i ==> FeatureOk(fs[j]) by {
        if r.Threw? {
          var i :| 0 <= i < |fs[1..]| && IsNullish(fs[1..][i]) && forall j :: 0 <= j < i ==> FeatureOk(fs[1..][j]);
          assert IsNullish(fs[i + 1]) && forall j :: 0 <= j < i + 1 ==> FeatureOk(fs[j]);
        }
      }
      assert (exists i :: 0 <= i < |fs| && IsNullish(fs[i]) && forall j :: 0 <= j < i ==> FeatureOk(fs[j])) ==> r.Threw? by {
        if exists i :: 0 <= i < |fs| && IsNullish(fs[i]) && forall j :: 0 <= j < i ==> FeatureOk(fs[j]) {
          var i :| 0 <= i < |fs| && IsNullish(fs[i]) && forall j :: 0 <= j < i ==> FeatureOk(fs[j]);
          assert i != 0;
          assert IsNullish(fs[1..][i - 1]) && forall j :: 0 <= j < i - 1 ==> FeatureOk(fs[1..][j]);
        }
      }
      r
  }

  /** The validator as written: it returns a boolean or throws TypeError. */
  function ValidateGeoJsonAsWritten(data: Json): (r: Completion<bool>)
    // wherever the code returns, it agrees with the total validator
    ensures r.Normal? ==> r.value == ValidateGeoJson(data)
    // it throws exactly on a well-shaped collection with a null or undefined
    // feature that comes before every failing one, and the total validator rejects those
    ensures r.Threw? <==>
              HasCollectionShape(data) &&
              exists i :: 0 <= i < |Features(data)| && IsNullish(Features(data)[i])
                          && forall j :: 0 <= j < i ==> FeatureOk(Features(data)[j])
    ensures r.Threw? ==> !ValidateGeoJson(data)
  {
    if !Truthy(data) || TypeOf(data) != "object" then Normal(false)
    else if Get(data, "type") != Str("FeatureCollection") || !Get(data, "features").Arr? then Normal(false)
    else
      assert Features(data) == Get(data, "features").items;
      EveryFeatureAsWritten(Get(data, "features").items)
  }

  /** A collection whose one feature is null: the code as written throws
      instead of answering, while the total validator answers false. */
  lemma NullFeatureThrows()
    ensures var data := Obj(map["type" := Str("FeatureCollection"), "features" := Arr([Null])]);
            ValidateGeoJsonAsWritten(data) == Threw(TypeError) && !ValidateGeoJson(data)
  {
    var data := Obj(map["type" := Str("FeatureCollection"), "features" := Arr([Null])]);
    assert Features(data) == [Null];
    assert !FeatureOk(Features(data)[0]);
  }
}
