/**
 * The irradiance feed as the application sees it (`IrradiancesFeed`, `Geometry`,
 * `Properties`, `Parameter`) and as the cache stores it (`LocalIrradiancesFeed`),
 * plus the time and error values the cache coordinator passes around.
 */
module FeedModel {
  import opened Wrappers

  /** A Swift `Double`. Nothing in the model computes with it; it is only compared and copied. */
  type Double(==)

  /** A point in time, in whole seconds since Foundation's reference date. */
  type Date = int

  /** A Swift `Error` raised by a store, compared by identity as the tests compare `NSError`s. */
  datatype Error = Error(domain: string, code: int)

  /** Longitude, latitude and elevation, in this order, when present. */
  datatype Geometry = Geometry(coordinates: Option<seq<Double>>)

  /** Three month-code keyed maps: direct normal, global horizontal and diffuse horizontal irradiance. */
  datatype Parameter = Parameter(
    allskySfcSwDni: Option<map<string, Double>>,
    allskySfcSwDwn: Option<map<string, Double>>,
    allskySfcSwDiff: Option<map<string, Double>>)

  datatype Properties = Properties(parameter: Option<Parameter>)

  /** The domain value; equality is structural. */
  datatype IrradiancesFeed = IrradiancesFeed(geometry: Option<Geometry>, properties: Option<Properties>)

  /** The form in which the cache stores a feed: both parts always present. */
  datatype LocalIrradiancesFeed = LocalIrradiancesFeed(geometry: Geometry, properties: Properties)

  /** The placeholder `load` delivers when there is no fresh cache: no coordinates and no parameter entries. */
  const EmptyFeed: IrradiancesFeed :=
    IrradiancesFeed(
      Some(Geometry(Some([]))),
      Some(Properties(Some(Parameter(Some(map[]), Some(map[]), Some(map[]))))))

  /** `IrradiancesFeed.toLocal()`: copies both parts; an absent part is stored with its own fields absent. */
  function ToLocal(feed: IrradiancesFeed): (local: LocalIrradiancesFeed)
    ensures feed.geometry.Some? ==> local.geometry == feed.geometry.value
    ensures feed.properties.Some? ==> local.properties == feed.properties.value
  {
    LocalIrradiancesFeed(feed.geometry.GetOr(Geometry(None)), feed.properties.GetOr(Properties(None)))
  }

  /** `LocalIrradiancesFeed.toModel()`: copies both parts unchanged. */
  function ToModel(local: LocalIrradiancesFeed): (feed: IrradiancesFeed)
    ensures feed.geometry == Some(local.geometry) && feed.properties == Some(local.properties)
  {
    IrradiancesFeed(Some(local.geometry), Some(local.properties))
  }

  /** A feed whose two parts are present survives the trip into the cache and back unchanged. */
  lemma ToModelToLocal(feed: IrradiancesFeed)
    requires feed.geometry.Some? && feed.properties.Some?
    ensures ToModel(ToLocal(feed)) == feed
  {
  }

  /**
   * The conditions under which a number survives being written as text and read back
   * inside a persisted string: its text parses to itself, is not empty, and holds
   * neither of the codecs' separators `,` and `:`.
   */
  predicate Reparses(x: Double, show: Double -> string, parse: string -> Option<Double>) {
    && parse(show(x)) == Some(x)
    && show(x) != []
    && ',' !in show(x)
    && ':' !in show(x)
  }
}
