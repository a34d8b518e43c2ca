/**
 * The feature shapes the rank calculator and the repository read: ski
 * areas, lifts and runs, with only the attributes the core inspects
 * spelled out. Every other attribute of `properties` travels with the
 * feature unchanged and is not represented.
 */
module Features {
  import opened Wrappers

  /** The discriminator `properties.type`. */
  datatype FeatureType = SkiArea | Lift | Run

  /** Statistics of one difficulty bucket (the `RunStatistics` interface). */
  datatype RunStatistics = RunStatistics(
    lengthInKm: Option<real>,
    count: Option<int>,
    maxElevation: Option<real>,
    minElevation: Option<real>,
    combinedElevationChange: Option<real>)

  /**
   * Statistics of one activity (the `ActivityStatistics` interface). The
   * `byDifficulty` object is a sequence of (difficulty, statistics) pairs
   * in the order in which `Object.values` visits them.
   */
  datatype ActivityStatistics =
    ActivityStatistics(byDifficulty: Option<seq<(string, RunStatistics)>>)

  /** `statistics.runs`, whose `byActivity` maps activity names to statistics. */
  datatype RunsStatistics =
    RunsStatistics(byActivity: Option<seq<(string, ActivityStatistics)>>)

  /** `properties.statistics`. */
  datatype Statistics = Statistics(runs: Option<RunsStatistics>)

  /** `location.localized.en`: English place names of a ski area. */
  datatype LocalizedNames = LocalizedNames(
    locality: Option<string>,
    region: Option<string>,
    country: Option<string>)

  /** `properties.location` of a ski area. */
  datatype Location = Location(en: LocalizedNames)

  /** A GeoJSON geometry; the core only copies it. */
  datatype Geometry = Geometry(geometryType: string, coordinates: seq<real>)

  /** The feature `properties` the core reads. */
  datatype Properties = Properties(
    id: string,
    featureType: FeatureType,
    name: Option<string>,
    location: Option<Location>,
    statistics: Option<Statistics>)

  /** A GeoJSON Feature `{ type: "Feature", properties, geometry }`. */
  datatype Feature = Feature(properties: Properties, geometry: Geometry)
}
