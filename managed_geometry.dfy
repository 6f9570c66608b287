/**
 * `ManagedGeometry`: the stored form of a feed's geometry, its coordinates written as one
 * comma-separated string.
 */
module ManagedGeometryCodec {
  import opened Wrappers
  import opened FeedModel
  import opened Text

  /** The persisted record: a single optional text field. */
  datatype ManagedGeometry = ManagedGeometry(coordinates: Option<string>)

  /** `ManagedGeometry.local`: split on `,` (empty pieces dropped) and keep the pieces that parse. */
  function Local(managed: ManagedGeometry, parse: string -> Option<Double>): (geometry: Geometry)
    ensures geometry.coordinates.None? <==> managed.coordinates.None?
    ensures managed.coordinates.Some? ==>
              |geometry.coordinates.value| <= |Split(managed.coordinates.value, ',')|
  {
    match managed.coordinates
    case None => Geometry(None)
    case Some(text) => Geometry(Some(CompactMap(Split(text, ','), parse)))
  }

  /** `ManagedGeometry.insert(_:in:)`: each coordinate's text, joined by `,` in list order. */
  function Insert(geometry: Option<Geometry>, show: Double -> string): (managed: Option<ManagedGeometry>)
    ensures managed.None? <==> geometry.None?
    ensures managed.Some? ==> (managed.value.coordinates.None? <==> geometry.value.coordinates.None?)
  {
    match geometry
    case None => None
    case Some(g) =>
      Some(ManagedGeometry(match g.coordinates
        case None => None
        case Some(coordinates) => Some(Join(MapSeq(coordinates, show), ','))))
  }

  /** Splitting the stored text gives back each coordinate's text, in list order. */
  lemma StoredPieces(coordinates: seq<Double>, show: Double -> string, parse: string -> Option<Double>)
    requires forall x <- coordinates :: Reparses(x, show, parse)
    ensures Insert(Some(Geometry(Some(coordinates))), show).value.coordinates
              == Some(Join(MapSeq(coordinates, show), ','))
    ensures Split(Join(MapSeq(coordinates, show), ','), ',') == MapSeq(coordinates, show)
  {
    var texts := MapSeq(coordinates, show);
    forall p <- texts ensures p != [] && ',' !in p {
      var i :| 0 <= i < |texts| && texts[i] == p;
      assert coordinates[i] in coordinates;
    }
    SplitJoin(texts, ',');
  }

  /**
   * Round trip: a geometry stored and read back is unchanged when each coordinate's text
   * parses back to it. Absent coordinates stay absent; the empty list stays empty.
   */
  lemma LocalInsert(geometry: Geometry, show: Double -> string, parse: string -> Option<Double>)
    requires geometry.coordinates.Some? ==> forall x <- geometry.coordinates.value :: Reparses(x, show, parse)
    ensures Local(Insert(Some(geometry), show).value, parse) == geometry
  {
    if geometry.coordinates.Some? {
      var coordinates := geometry.coordinates.value;
      StoredPieces(coordinates, show, parse);
      CompactMapOfTexts(coordinates, show, parse);
    }
  }

  /** Parsing the texts of numbers that reparse gives the numbers back. */
  lemma {:induction false} CompactMapOfTexts(coordinates: seq<Double>, show: Double -> string, parse: string -> Option<Double>)
    requires forall x <- coordinates :: Reparses(x, show, parse)
    ensures CompactMap(MapSeq(coordinates, show), parse) == coordinates
  {
    if coordinates != [] {
      assert coordinates[0] in coordinates;
      assert forall x <- coordinates[1..] :: x in coordinates;
      CompactMapOfTexts(coordinates[1..], show, parse);
      assert MapSeq(coordinates, show) == [show(coordinates[0])] + MapSeq(coordinates[1..], show);
      assert [coordinates[0]] + coordinates[1..] == coordinates;
    }
  }
}
