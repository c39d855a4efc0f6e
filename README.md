# BECI web map: the mock-data module in Dafny

The BECI web map shows synthetic North Pacific fisheries and ocean datasets on
a MapLibre basemap. The part of it with logic of its own is the data module
`map/src/modules/data.js`. This project models that module.

It has three parts:

- **Validator.** `validateGeoJSONData` checks the top level of a GeoJSON
  FeatureCollection: `type` must be `'FeatureCollection'` and `features` must
  be an array. Each feature must have `type` `'Feature'`, a truthy `geometry`
  and truthy `properties`. These are the members that sections 3.2 and 3.3 of
  RFC 7946 define.
  - Module `GeoJson` models it over a JavaScript value type.
  - Module `JsValues` defines that type, together with JavaScript truthiness,
    `typeof` and property reads.
- **Statistics fold.** `calculateDataStats` loops over the named datasets
  with three accumulators:
  - a feature total;
  - a per-key count table;
  - a quality score that loses 10 points for each invalid dataset.

  Module `Statistics` models it as a method whose loop updates a `DataStats`
  record field by field. Recursive specification functions state what each
  accumulator holds, and lemmas state what those functions mean.
- **Generators.** `loadMockData` and the four generators map fixed tables
  into FeatureCollections:
  - 10 salmon points;
  - 4 migration corridors;
  - 5 temperature-anomaly polygons;
  - 10 monitoring stations.

  Module `MockData` models them as functions. Each `Math.floor(Math.random() * n)`
  becomes a caller-supplied integer pick in [0, n). The station status roll
  `Math.random()` becomes a real in [0, 1). The clock-derived `lastUpdate`
  string is a parameter. With these parameters the generators are
  deterministic, and their contracts hold for every draw.

Representation choices:
- JavaScript numbers are Dafny `real`s.
- An object is the map of its own properties.
- The data object that `calculateDataStats` receives, and that `loadMockData`
  returns, is given as its `Object.entries` list: (key, dataset) pairs in
  `Object.entries` order. Lemmas that depend on each key occurring once, as in
  a JavaScript object, require `DistinctKeys`.
- `featureTypes` starts as a plain `{}`. Assigning to its `__proto__` key
  calls the inherited setter, which ignores a number. So a valid dataset under
  the key `__proto__` adds to `totalFeatures` but gets no `featureTypes`
  entry. The model does the same (`Statistics.ProtoKey`).

Each corridor has a fixed intensity (85, 72, 68, 91); nothing in
`generateMigrationCorridorData` is random.

## Model

| member | source | states |
|---|---|---|
| `GeoJson.ValidateGeoJson` | map/src/modules/data.js:283-297 | Rejects a falsy value or a non-object first. Then rejects a wrong `type` or a non-array `features`, so an array never validates and only a plain object can. On a well-shaped collection, returns true exactly when every feature passes the per-feature test. An empty `features` array validates. This is the corrected validator (see Findings). |
| `GeoJson.EveryFeatureOk` | map/src/modules/data.js:292-296 | The recursive `every` returns true exactly when every element has `type` `'Feature'`, a truthy `geometry` and truthy `properties`. |
| `GeoJson.ValidateGeoJsonAsWritten` | map/src/modules/data.js:283-297 | The validator as written. Wherever it returns, it returns the same answer as `ValidateGeoJson`. It throws TypeError exactly on a well-shaped collection that has a null or undefined feature before any failing feature. `ValidateGeoJson` rejects all of those. |
| `GeoJson.EveryFeatureAsWritten` | map/src/modules/data.js:292-296 | `every` with the unguarded `feature.type` read. It returns the conjunction of the feature tests, unless a nullish element comes before every failing one; then it throws. |
| `GeoJson.NullFeatureThrows` | map/src/modules/data.js:292-296 | On `{type: 'FeatureCollection', features: [null]}` the code as written throws TypeError, while the corrected validator answers false. |
| `Statistics.CalculateDataStats` | map/src/modules/data.js:302-319 | After the loop, `totalFeatures` is the feature total over the valid datasets and `featureTypes` is the per-key count map of the valid datasets, with no entry for the key `__proto__`. `dataQuality` is 100 − 10 × (number of invalid datasets). |
| `Statistics.FullQualityIffAllValid` | map/src/modules/data.js:309-315 | The invalid count is 0, so the score is 100, exactly when every dataset validates. |
| `Statistics.InvalidCountBounded` | map/src/modules/data.js:309-315 | The invalid count never exceeds the number of datasets. |
| `Statistics.OneInvalidDataset` | map/src/modules/data.js:309-315 | With exactly one invalid dataset, the invalid count is 1 and the score is 90. |
| `Statistics.NoLowerClamp` | map/src/modules/data.js:306-315 | When every dataset is invalid, each one costs 10 points. There is no clamp, so 11 or more invalid datasets give a negative score. |
| `Statistics.ValidTypesKeys` | map/src/modules/data.js:310-312 | A key is in `featureTypes` exactly when it is not `__proto__` and some dataset under that key validates. Invalid datasets add no key. |
| `Statistics.ValidTypesValues` | map/src/modules/data.js:310-312 | With distinct keys, the entry for a valid dataset under a key other than `__proto__` holds that dataset's `features.length`. |
| `Statistics.KeysPlusInvalidIsAll` | map/src/modules/data.js:309-315 | With distinct keys, the number of `featureTypes` keys, plus the number of invalid datasets, plus the number of valid datasets under `__proto__`, equals the number of datasets. At most one valid dataset sits under `__proto__`. |
| `Statistics.TotalIsSumOfTypes` | map/src/modules/data.js:309-312 | With distinct keys, `totalFeatures` equals the sum of the values in `featureTypes` plus the features of a valid dataset under `__proto__`. |
| `Statistics.NothingDroppedWithoutProtoKey` | map/src/modules/data.js:310-312 | Without a `__proto__` key nothing is dropped, so in the two lemmas above the `featureTypes` counts alone account for every valid dataset and every feature. |
| `MockData.SalmonFeature` | map/src/modules/data.js:38-51 | The salmon `map` callback builds a `Point` Feature that passes the feature test, named after its location. `density` is an integer in [10, 109] and `species` is one of the five names. |
| `MockData.GenerateSalmonPopulationData` | map/src/modules/data.js:23-57 | Builds a valid FeatureCollection of 10 Point features, one per location in table order. Every `density` is an integer in [10, 109] and every `species` is one of Chinook, Coho, Sockeye, Pink, Chum. |
| `MockData.CorridorFeature` | map/src/modules/data.js:111-124 | The corridor callback builds a `LineString` Feature that passes the feature test and carries its route name. |
| `MockData.GenerateMigrationCorridorData` | map/src/modules/data.js:62-130 | Builds a valid FeatureCollection of 4 LineString features, one per corridor in table order. |
| `MockData.AnomalyFeature` | map/src/modules/data.js:194-207 | The zone callback builds a `Polygon` Feature that passes the feature test, named after its zone, with an integer `confidence` in [80, 99]. |
| `MockData.GenerateTemperatureAnomalyData` | map/src/modules/data.js:135-213 | Builds a valid FeatureCollection of 5 Polygon features, one per zone in table order, each with `confidence` an integer in [80, 99]. |
| `MockData.StationFeature` | map/src/modules/data.js:232-245 | The station callback builds a `Point` Feature that passes the feature test. `status` is `'Active'` or `'Maintenance'` and `dataStreams` is an integer in [2, 6]. |
| `MockData.GenerateMonitoringStationData` | map/src/modules/data.js:218-251 | Builds a valid FeatureCollection of 10 Point features, one per station in table order. Every `status` is `'Active'` or `'Maintenance'` and every `dataStreams` is an integer in [2, 6]. |
| `MockData.LoadMockData` | map/src/modules/data.js:6-18 | Returns four datasets under the keys salmonPopulations, migrationCorridors, temperatureAnomalies and monitoringStations, in that order. Each one validates, with 10, 4, 5 and 10 features. |
| `MockData.MockKeysDistinct` | map/src/modules/data.js:9-14 | The four dataset keys of the data object are distinct. |
| `MockData.MockDataStats` | map/src/modules/data.js:302-319 | For every draw, the statistics of the mock data are 29 features in all, split 10/4/5/10 by key, with quality 100. |

## Left out

- `map/src/modules/map.js` is not part of this model. Map construction, sources, layers, popups, `toggleLayer` and the `interpolate` paint expressions are calls into, or data for, MapLibre GL, whose style semantics are not modelled.
- `map/src/modules/controls.js` is not part of this model. It is DOM event wiring; `getLayerStates` and `setLayerStates` only read and write checkbox flags and forward to `toggleLayer`.
- `map/src/main.js` (start-up sequence and loading or error screen) and `map/vite.config.js` (build configuration) are not part of this model.
- `loadLiveData` is a stub that logs and returns the mock data, so it adds nothing to `LoadMockData`.
- The `async`/Promise wrapping and the console logging are not modelled.
- `Math.random()` is replaced by caller-supplied draws in the ranges it produces. Probabilities, such as a status of 'Active' 90% of the time, are not modelled.
- `lastUpdate` comes from the clock and ISO date formatting. It is an opaque caller-supplied string.
- Coordinates and anomaly values are real constants. No numeric property of them is stated.
- NaN and the infinities are not representable, and negative zero is the same as zero (both are falsy). Functions, symbols and inherited properties are not modelled. `Get` does not return the built-in `length` of arrays and strings. The module reads `dataset.features.length`, modelled by `Statistics.FeatureCount`, and `species.length`, the constant `|Species|` that bounds `SalmonDraw.speciesPick`. The validator reads only `type`, `features`, `geometry` and `properties`, none of which is built in.
- `calculateDataStats` receives `Object.entries(data)`, so the TypeError that `Object.entries` throws on a null or undefined argument is not modelled.
- `Statistics.CalculateDataStats` uses the corrected validator. With the validator as written, a dataset with a leading null or undefined feature makes the whole call throw; that path is captured only through `GeoJson.ValidateGeoJsonAsWritten`.

## Findings

| source | as written | input that shows it | evidently intended | confidence | as-written member | corrected member |
|---|---|---|---|---|---|---|
| map/src/modules/data.js:292-296 | The per-feature test reads `feature.type` unguarded, so a null or undefined element of `features` throws TypeError out of `validateGeoJSONData` (and out of `calculateDataStats`) instead of producing false | `{type: 'FeatureCollection', features: [null]}` | Return false, so that the dataset counts as invalid and lowers the quality score | medium; not executed | `GeoJson.ValidateGeoJsonAsWritten` (witness `GeoJson.NullFeatureThrows`) | `GeoJson.ValidateGeoJson` |
