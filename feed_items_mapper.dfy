/**
 * `FeedItemsMapper`: turns an HTTP response into a feed. Only status 200 with a body that
 * decodes as a whole is accepted; every other response is `invalidData`.
 *
 * JSON decoding is not modelled: the decoder is a parameter that either yields a `Root` or fails.
 */
module FeedItemsMapper {
  import opened Wrappers
  import opened FeedModel

  type Data = seq<bv8>

  datatype HTTPURLResponse = HTTPURLResponse(statusCode: int)

  /** The errors of `RemoteFeedLoader`. */
  datatype RemoteError = Connectivity | InvalidData

  /** The decoded JSON document: both parts are mandatory. */
  datatype Root = Root(geometry: Geometry, properties: Properties) {
    /** `Root.item`: the feed made of both parts, unchanged. */
    function Item(): (feed: IrradiancesFeed)
      ensures feed.geometry == Some(geometry) && feed.properties == Some(properties)
    {
      IrradiancesFeed(Some(geometry), Some(properties))
    }
  }

  const OK_200: int := 200

  /** `FeedItemsMapper.map(_:from:)`. */
  function Map(data: Data, response: HTTPURLResponse, decode: Data -> Option<Root>): (r: Result<IrradiancesFeed, RemoteError>)
    ensures r.Success? <==> response.statusCode == 200 && decode(data).Some?
    ensures r.Failure? ==> r.error == InvalidData
    ensures r.Success? ==>
              && r.value.geometry == Some(decode(data).value.geometry)
              && r.value.properties == Some(decode(data).value.properties)
  {
    if response.statusCode != OK_200 then Failure(InvalidData)
    else match decode(data)
      case None => Failure(InvalidData)
      case Some(root) => Success(root.Item())
  }

  /** Any status other than 200 is rejected, whatever the body. */
  lemma RejectsNon200(data: Data, response: HTTPURLResponse, decode: Data -> Option<Root>)
    requires response.statusCode != 200
    ensures Map(data, response, decode) == Failure(InvalidData)
  {
  }

  /** Status 200 with a body that does not decode is rejected. */
  lemma RejectsUndecodable(data: Data, decode: Data -> Option<Root>)
    requires decode(data).None?
    ensures Map(data, HTTPURLResponse(200), decode) == Failure(InvalidData)
  {
  }

  /** Status 200 with a decodable body gives its geometry and properties unchanged. */
  lemma DeliversDecodedFeed(data: Data, decode: Data -> Option<Root>, root: Root)
    requires decode(data) == Some(root)
    ensures Map(data, HTTPURLResponse(200), decode) == Success(IrradiancesFeed(Some(root.geometry), Some(root.properties)))
  {
  }
}
