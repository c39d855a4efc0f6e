/**
 * The mock data generator: four fixed tables (salmon locations, migration
 * corridors, temperature-anomaly zones, monitoring stations), each mapped into
 * a GeoJSON FeatureCollection with one Feature per table row.
 *
 * Every `Math.floor(Math.random() * n)` of the source is a caller-supplied
 * integer pick in [0, n); the station status roll `Math.random()` is a real
 * in [0, 1); the clock-derived `lastUpdate` date is a caller-supplied string.
 * With those as parameters the generators are deterministic functions.
 */
module MockData {
  import opened JsValues
  import opened GeoJson
  import opened Statistics

  // ---------------------------------------------------------------------------
  // Building GeoJSON values.

  /** A longitude/latitude position. */
  datatype Position = Position(lon: real, lat: real)

  /** `[lon, lat]`. */
  function Coordinates(p: Position): Json {
    Arr([Num(p.lon), Num(p.lat)])
  }

  /** `[[lon, lat], ...]`. */
  function CoordinateList(ps: seq<Position>): (r: Json)
    ensures r.Arr? && |r.items| == |ps|
  {
    Arr(seq(|ps|, i requires 0 <= i < |ps| => Coordinates(ps[i])))
  }

  /** `{ type: 'Feature', geometry: { type: kind, coordinates }, properties }`. */
  function MakeFeature(kind: string, coordinates: Json, properties: map<string, Json>): (f: Json)
    ensures FeatureOk(f) && GeometryType(f) == Str(kind)
  {
    Obj(map[
      "type" := Str("Feature"),
      "geometry" := Obj(map["type" := Str(kind), "coordinates" := coordinates]),
      "properties" := Obj(properties)])
  }

  /** `{ type: 'FeatureCollection', features }`. */
  function FeatureCollection(features: seq<Json>): (fc: Json)
    ensures HasCollectionShape(fc) && Features(fc) == features
  {
    Obj(map["type" := Str("FeatureCollection"), "features" := Arr(features)])
  }

  /** A feature's `geometry.type`. */
  function GeometryType(feature: Json): Json {
    Get(Get(feature, "geometry"), "type")
  }

  /** A feature's attribute `feature.properties[key]`. */
  function Attr(feature: Json, key: string): Json {
    Get(Get(feature, "properties"), key)
  }

  /** An integral number in [lo, hi]. */
  predicate IntegerIn(v: Json, lo: int, hi: int) {
    v.Num? && v.n == v.n.Floor as real && lo <= v.n.Floor <= hi
  }

  /** An integer attribute value. */
  function Int(k: int): Json {
    Num(k as real)
  }

  // ---------------------------------------------------------------------------
  // Salmon population density: ten points.

  const Species: seq<string> := ["Chinook", "Coho", "Sockeye", "Pink", "Chum"]
  const Seasons: seq<string> := ["Spring", "Summer", "Fall", "Winter"]

  datatype Location = Location(name: string, at: Position)

  const SalmonLocations: seq<Location> := [
    Location("Bristol Bay", Position(-158.5, 58.5)),
    Location("Prince William Sound", Position(-147.0, 60.5)),
    Location("Southeast Alaska", Position(-134.0, 57.0)),
    Location("British Columbia Coast", Position(-125.0, 52.0)),
    Location("Washington Coast", Position(-124.0, 47.5)),
    Location("Oregon Coast", Position(-124.0, 44.0)),
    Location("Northern California", Position(-124.0, 40.0)),
    Location("Kamchatka Peninsula", Position(158.0, 56.0)),
    Location("Hokkaido", Position(143.0, 43.0)),
    Location("Sakhalin Island", Position(143.0, 51.0))
  ]

  /** The three random picks made for one salmon location. */
  datatype SalmonDraw = SalmonDraw(speciesPick: int, densityPick: int, seasonPick: int) {
    predicate InRange() {
      0 <= speciesPick < |Species| && 0 <= densityPick < 100 && 0 <= seasonPick < |Seasons|
    }
  }

  function SalmonFeature(loc: Location, d: SalmonDraw): (f: Json)
    requires d.InRange()
    ensures FeatureOk(f) && GeometryType(f) == Str("Point") && Attr(f, "location") == Str(loc.name)
    ensures IntegerIn(Attr(f, "density"), 10, 109)
    ensures Attr(f, "species").Str? && Attr(f, "species").s in Species
  {
    MakeFeature("Point", Coordinates(loc.at), map[
      "location" := Str(loc.name),
      "species" := Str(Species[d.speciesPick]),
      "density" := Int(d.densityPick + 10),
      "season" := Str(Seasons[d.seasonPick]),
      "year" := Int(2024)])
  }

  /** `generateSalmonPopulationData`. */
  function GenerateSalmonPopulationData(draws: seq<SalmonDraw>): (fc: Json)
    requires |draws| == |SalmonLocations|
    requires forall d | d in draws :: d.InRange()
    ensures ValidateGeoJson(fc)
    ensures FeatureCount(fc) == 10
    // one feature per location, in table order
    ensures forall i | 0 <= i < 10 ::
              GeometryType(Features(fc)[i]) == Str("Point") && Attr(Features(fc)[i], "location") == Str(SalmonLocations[i].name)
    // density is Math.floor(Math.random() * 100) + 10, so in [10, 109]
    ensures forall i | 0 <= i < 10 :: IntegerIn(Attr(Features(fc)[i], "density"), 10, 109)
    // species is one of the five names
    ensures forall i | 0 <= i < 10 ::
              Attr(Features(fc)[i], "species").Str? && Attr(Features(fc)[i], "species").s in Species
  {
    var features := seq(|SalmonLocations|, i requires 0 <= i < |SalmonLocations| =>
                          SalmonFeature(SalmonLocations[i], draws[i]));
    FeatureCollection(features)
  }

  // ---------------------------------------------------------------------------
  // Migration corridors: four line strings, nothing random.

  datatype Corridor = Corridor(route: string, path: seq<Position>, species: string, intensity: int)

  const Corridors: seq<Corridor> := [
    Corridor("Alaska to California",
      [Position(-158.0, 58.0), Position(-150.0, 55.0), Position(-140.0, 50.0),
       Position(-130.0, 45.0), Position(-125.0, 40.0)],
      "Chinook", 85),
    Corridor("Japan to Alaska",
      [Position(143.0, 43.0), Position(165.0, 50.0), Position(-175.0, 55.0), Position(-158.0, 58.0)],
      "Sockeye", 72),
    Corridor("Kamchatka to Alaska",
      [Position(158.0, 56.0), Position(175.0, 58.0), Position(-170.0, 60.0), Position(-158.0, 58.0)],
      "Pink", 68),
    Corridor("British Columbia Coastal",
      [Position(-125.0, 48.0), Position(-126.0, 50.0), Position(-128.0, 52.0), Position(-130.0, 54.0)],
      "Coho", 91)
  ]

  function CorridorFeature(c: Corridor): (f: Json)
    ensures FeatureOk(f) && GeometryType(f) == Str("LineString") && Attr(f, "route") == Str(c.route)
  {
    MakeFeature("LineString", CoordinateList(c.path), map[
      "route" := Str(c.route),
      "species" := Str(c.species),
      "intensity" := Int(c.intensity),
      "season" := Str("Spring-Fall"),
      "year" := Int(2024)])
  }

  /** `generateMigrationCorridorData`. */
  function GenerateMigrationCorridorData(): (fc: Json)
    ensures ValidateGeoJson(fc)
    ensures FeatureCount(fc) == 4
    ensures forall i | 0 <= i < 4 ::
              GeometryType(Features(fc)[i]) == Str("LineString") && Attr(Features(fc)[i], "route") == Str(Corridors[i].route)
  {
    FeatureCollection(seq(|Corridors|, i requires 0 <= i < |Corridors| => CorridorFeature(Corridors[i])))
  }

  // ---------------------------------------------------------------------------
  // Temperature anomalies: five polygons.

  datatype AnomalyZone = AnomalyZone(name: string, ring: seq<Position>, anomaly: real)

  const AnomalyZones: seq<AnomalyZone> := [
    AnomalyZone("Gulf of Alaska Warming",
      [Position(-155.0, 56.0), Position(-145.0, 56.0), Position(-145.0, 60.0),
       Position(-155.0, 60.0), Position(-155.0, 56.0)], 2.1),
    AnomalyZone("Bering Sea Cold Pool",
      [Position(-175.0, 58.0), Position(-165.0, 58.0), Position(-165.0, 62.0),
       Position(-175.0, 62.0), Position(-175.0, 58.0)], -1.5),
    AnomalyZone("California Current Cool",
      [Position(-125.0, 35.0), Position(-120.0, 35.0), Position(-120.0, 42.0),
       Position(-125.0, 42.0), Position(-125.0, 35.0)], -0.8),
    AnomalyZone("Kuroshio Extension Warm",
      [Position(140.0, 40.0), Position(150.0, 40.0), Position(150.0, 45.0),
       Position(140.0, 45.0), Position(140.0, 40.0)], 1.7),
    AnomalyZone("Oyashio Current Cold",
      [Position(140.0, 45.0), Position(150.0, 45.0), Position(150.0, 50.0),
       Position(140.0, 50.0), Position(140.0, 45.0)], -1.2)
  ]

  /** `confidencePick` is the pick in [0, 20) behind the zone's confidence. */
  function AnomalyFeature(z: AnomalyZone, confidencePick: int): (f: Json)
    requires 0 <= confidencePick < 20
    ensures FeatureOk(f) && GeometryType(f) == Str("Polygon") && Attr(f, "location") == Str(z.name)
    ensures IntegerIn(Attr(f, "confidence"), 80, 99)
  {
    MakeFeature("Polygon", Arr([CoordinateList(z.ring)]), map[
      "location" := Str(z.name),
      "anomaly" := Num(z.anomaly),
      "depth" := Str("Surface"),
      "date" := Str("2024-06-01"),
      "confidence" := Int(confidencePick + 80)])
  }

  /** `generateTemperatureAnomalyData`. */
  function GenerateTemperatureAnomalyData(confidencePicks: seq<int>): (fc: Json)
    requires |confidencePicks| == |AnomalyZones|
    requires forall i | 0 <= i < |confidencePicks| :: 0 <= confidencePicks[i] < 20
    ensures ValidateGeoJson(fc)
    ensures FeatureCount(fc) == 5
    ensures forall i | 0 <= i < 5 ::
              GeometryType(Features(fc)[i]) == Str("Polygon") && Attr(Features(fc)[i], "location") == Str(AnomalyZones[i].name)
    // confidence is Math.floor(Math.random() * 20) + 80, so in [80, 99]
    ensures forall i | 0 <= i < 5 :: IntegerIn(Attr(Features(fc)[i], "confidence"), 80, 99)
  {
    var features := seq(|AnomalyZones|, i requires 0 <= i < |AnomalyZones| =>
                          AnomalyFeature(AnomalyZones[i], confidencePicks[i]));
    FeatureCollection(features)
  }

  // ---------------------------------------------------------------------------
  // Monitoring stations: ten points.

  datatype Station = Station(name: string, at: Position, kind: string)

  const Stations: seq<Station> := [
    Station("Sitka Ocean Station", Position(-135.3, 57.0), "Oceanographic"),
    Station("Kodiak Research Station", Position(-152.4, 57.8), "Fisheries"),
    Station("Prince Rupert Buoy", Position(-130.3, 54.3), "Weather"),
    Station("Vancouver Island Observatory", Position(-125.9, 49.7), "Multi-sensor"),
    Station("Crescent City Station", Position(-124.2, 41.7), "Tsunami"),
    Station("Monterey Bay Research", Position(-121.9, 36.8), "Deep Sea"),
    Station("Hokkaido Marine Lab", Position(143.2, 42.9), "Fisheries"),
    Station("Kamchatka Buoy Array", Position(158.6, 55.2), "Oceanographic"),
    Station("Bering Sea Station", Position(-168.9, 60.8), "Climate"),
    Station("Aleutian Observatory", Position(-166.5, 53.9), "Seismic")
  ]

  /** The random inputs of one station: the status roll, the date string the
      clock gives for `lastUpdate`, and the pick in [0, 5) behind `dataStreams`. */
  datatype StationDraw = StationDraw(statusRoll: real, lastUpdate: string, streamsPick: int) {
    predicate InRange() {
      0.0 <= statusRoll < 1.0 && 0 <= streamsPick < 5
    }
  }

  function StationFeature(s: Station, d: StationDraw): (f: Json)
    requires d.InRange()
    ensures FeatureOk(f) && GeometryType(f) == Str("Point") && Attr(f, "name") == Str(s.name)
    ensures Attr(f, "status") in {Str("Active"), Str("Maintenance")}
    ensures IntegerIn(Attr(f, "dataStreams"), 2, 6)
  {
    MakeFeature("Point", Coordinates(s.at), map[
      "name" := Str(s.name),
      "type" := Str(s.kind),
      "status" := Str(if d.statusRoll > 0.1 then "Active" else "Maintenance"),
      "lastUpdate" := Str(d.lastUpdate),
      "dataStreams" := Int(d.streamsPick + 2)])
  }

  /** `generateMonitoringStationData`. */
  function GenerateMonitoringStationData(draws: seq<StationDraw>): (fc: Json)
    requires |draws| == |Stations|
    requires forall d | d in draws :: d.InRange()
    ensures ValidateGeoJson(fc)
    ensures FeatureCount(fc) == 10
    ensures forall i | 0 <= i < 10 ::
              GeometryType(Features(fc)[i]) == Str("Point") && Attr(Features(fc)[i], "name") == Str(Stations[i].name)
    // status is 'Active' or 'Maintenance'
    ensures forall i | 0 <= i < 10 :: Attr(Features(fc)[i], "status") in {Str("Active"), Str("Maintenance")}
    // dataStreams is Math.floor(Math.random() * 5) + 2, so in [2, 6]
    ensures forall i | 0 <= i < 10 :: IntegerIn(Attr(Features(fc)[i], "dataStreams"), 2, 6)
  {
    var features := seq(|Stations|, i requires 0 <= i < |Stations| => StationFeature(Stations[i], draws[i]));
    FeatureCollection(features)
  }

  // ---------------------------------------------------------------------------
  // All four datasets.

  /** The random inputs of one `loadMockData` call, in the ranges the source draws them. */
  predicate DrawsInRange(salmon: seq<SalmonDraw>, confidencePicks: seq<int>, stations: seq<StationDraw>) {
    && |salmon| == |SalmonLocations| && (forall d | d in salmon :: d.InRange())
    && |confidencePicks| == |AnomalyZones| && (forall i | 0 <= i < |confidencePicks| :: 0 <= confidencePicks[i] < 20)
    && |stations| == |Stations| && (forall d | d in stations :: d.InRange())
  }

  /** The keys of the data object `loadMockData` builds, in `Object.entries` order (their insertion order: none is an array index). */
  const MockKeys: seq<string> := ["salmonPopulations", "migrationCorridors", "temperatureAnomalies", "monitoringStations"]

  /** `loadMockData`: the data object, as its entries in `Object.entries` order. */
  function LoadMockData(salmon: seq<SalmonDraw>, confidencePicks: seq<int>, stations: seq<StationDraw>)
    : (data: seq<(string, Json)>)
    requires DrawsInRange(salmon, confidencePicks, stations)
    ensures |data| == 4
    ensures data[0].0 == MockKeys[0] && data[1].0 == MockKeys[1] && data[2].0 == MockKeys[2] && data[3].0 == MockKeys[3]
    // every dataset validates, with 10, 4, 5 and 10 features
    ensures ValidateGeoJson(data[0].1) && FeatureCount(data[0].1) == 10
    ensures ValidateGeoJson(data[1].1) && FeatureCount(data[1].1) == 4
    ensures ValidateGeoJson(data[2].1) && FeatureCount(data[2].1) == 5
    ensures ValidateGeoJson(data[3].1) && FeatureCount(data[3].1) == 10
  {
    [ (MockKeys[0], GenerateSalmonPopulationData(salmon)),
      (MockKeys[1], GenerateMigrationCorridorData()),
      (MockKeys[2], GenerateTemperatureAnomalyData(confidencePicks)),
      (MockKeys[3], GenerateMonitoringStationData(stations)) ]
  }

  /** Four datasets under the four mock keys have distinct keys. */
  lemma MockKeysDistinct(data: seq<(string, Json)>)
    requires |data| == 4
    requires data[0].0 == MockKeys[0] && data[1].0 == MockKeys[1] && data[2].0 == MockKeys[2] && data[3].0 == MockKeys[3]
    ensures DistinctKeys(data)
  {
  }

  /** The statistics of four datasets that all validate. */
  lemma StatsOfFourValid(data: seq<(string, Json)>)
    requires |data| == 4
    requires forall i | 0 <= i < 4 :: ValidateGeoJson(data[i].1) && data[i].0 != ProtoKey
    ensures InvalidCount(data) == 0
    ensures ValidTotal(data) == FeatureCount(data[0].1) + FeatureCount(data[1].1)
                                + FeatureCount(data[2].1) + FeatureCount(data[3].1)
    ensures ValidTypes(data) == map[data[0].0 := FeatureCount(data[0].1)][data[1].0 := FeatureCount(data[1].1)]
                                   [data[2].0 := FeatureCount(data[2].1)][data[3].0 := FeatureCount(data[3].1)]
  {
    var d3, d2, d1 := data[..3], data[..2], data[..1];
    assert d3[..2] == d2 && d2[..1] == d1 && d1[..0] == [];
    assert InvalidCount(d1) == 0 && ValidTotal(d1) == FeatureCount(data[0].1);
    assert ValidTypes(d1) == map[data[0].0 := FeatureCount(data[0].1)];
    assert InvalidCount(d2) == 0 && ValidTotal(d2) == ValidTotal(d1) + FeatureCount(data[1].1);
    assert ValidTypes(d2) == ValidTypes(d1)[data[1].0 := FeatureCount(data[1].1)];
    assert InvalidCount(d3) == 0 && ValidTotal(d3) == ValidTotal(d2) + FeatureCount(data[2].1);
    assert ValidTypes(d3) == ValidTypes(d2)[data[2].0 := FeatureCount(data[2].1)];
    assert data[..|data| - 1] == d3;
  }

  /** Any four valid datasets under the mock keys, with the mock feature
      counts, give these statistics. */
  lemma StatsOfMockShape(data: seq<(string, Json)>)
    requires |data| == 4
    requires data[0].0 == MockKeys[0] && data[1].0 == MockKeys[1] && data[2].0 == MockKeys[2] && data[3].0 == MockKeys[3]
    requires ValidateGeoJson(data[0].1) && FeatureCount(data[0].1) == 10
    requires ValidateGeoJson(data[1].1) && FeatureCount(data[1].1) == 4
    requires ValidateGeoJson(data[2].1) && FeatureCount(data[2].1) == 5
    requires ValidateGeoJson(data[3].1) && FeatureCount(data[3].1) == 10
    ensures DistinctKeys(data)
    ensures ValidTotal(data) == 29
    ensures 100 - 10 * InvalidCount(data) == 100
    ensures ValidTypes(data) == map["salmonPopulations" := 10, "migrationCorridors" := 4,
                                    "temperatureAnomalies" := 5, "monitoringStations" := 10]
  {
    MockKeysDistinct(data);
    StatsOfFourValid(data);
  }

  /** Whatever the random draws, the statistics of the mock data are 29
      features in all, split 10/4/5/10, and a quality score of 100. */
  lemma MockDataStats(salmon: seq<SalmonDraw>, confidencePicks: seq<int>, stations: seq<StationDraw>)
    requires DrawsInRange(salmon, confidencePicks, stations)
    ensures var data := LoadMockData(salmon, confidencePicks, stations);
            && DistinctKeys(data)
            && ValidTotal(data) == 29
            && 100 - 10 * InvalidCount(data) == 100
            && ValidTypes(data) == map["salmonPopulations" := 10, "migrationCorridors" := 4,
                                       "temperatureAnomalies" := 5, "monitoringStations" := 10]
  {
    StatsOfMockShape(LoadMockData(salmon, confidencePicks, stations));
  }
}
