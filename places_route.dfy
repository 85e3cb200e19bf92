/** The `GET /api/places` route: guards on the `query` parameter and the
    Google Maps key, one Text Search request upstream, and the mapping of
    the upstream `results` to the route's `places`.

    The upstream exchange is an input value: the handler first decides
    whether to answer at once or to call upstream (`Guard`), and the
    upstream outcome then determines the answer (`Finish`). */
module PlacesRoute {
  import opened Js

  const QueryRequiredMessage := "Query parameter is required"
  const KeyMissingMessage := "Google Maps API key not configured"
  const FetchFailedMessage := "Failed to fetch places"

  // ---------------------------------------------------------------------
  // Upstream records; a field the upstream leaves out is `None`

  /** Coordinates are floating point upstream; here they are carried, never computed with. */
  datatype LatLng = LatLng(lat: real, lng: real)

  datatype Geometry = Geometry(location: Option<LatLng>)

  datatype UpstreamPhoto = UpstreamPhoto(
    photo_reference: Option<string>,
    height: Option<int>,
    width: Option<int>)

  datatype UpstreamPlace = UpstreamPlace(
    place_id: Option<string>,
    name: Option<string>,
    formatted_address: Option<string>,
    geometry: Option<Geometry>,
    rating: Option<real>,
    price_level: Option<int>,
    types: Option<seq<string>>,
    photos: Option<seq<UpstreamPhoto>>)

  datatype UpstreamBody = UpstreamBody(status: Option<string>, results: Option<seq<UpstreamPlace>>)

  /** How the upstream call went: it threw (network failure), or it answered
      with an ok flag and a body that is JSON (`Some`) or not (`None`). */
  datatype Outcome = Threw | Answered(ok: bool, json: Option<UpstreamBody>)

  /** The Text Search request: the URL carries the encoded query and the key. */
  datatype UpstreamRequest = TextSearch(query: string, key: string)

  // ---------------------------------------------------------------------
  // The route's records

  datatype Photo = Photo(reference: Option<string>, height: Option<int>, width: Option<int>)

  datatype Place = Place(
    id: Option<string>,
    name: Option<string>,
    address: Option<string>,
    location: Option<LatLng>,
    rating: Option<real>,
    priceLevel: Option<int>,
    types: Option<seq<string>>,
    photos: Option<seq<Photo>>)

  datatype Body = ErrorBody(error: string) | PlacesBody(places: seq<Place>)

  datatype Response = Response(status: int, body: Body)

  datatype Decision = Respond(response: Response) | CallUpstream(request: UpstreamRequest)

  // ---------------------------------------------------------------------
  // Field mapping

  function ToPhoto(p: UpstreamPhoto): Photo {
    Photo(p.photo_reference, p.height, p.width)
  }

  /** `photos.map(...)`: one photo per upstream photo, in order. */
  function MapPhotos(ps: seq<UpstreamPhoto>): (r: seq<Photo>)
    ensures |r| == |ps|
    ensures forall i :: 0 <= i < |ps| ==> r[i] == ToPhoto(ps[i])
  {
    if ps == [] then [] else [ToPhoto(ps[0])] + MapPhotos(ps[1..])
  }

  /** One upstream result as a place: `place_id` becomes `id`,
      `formatted_address` becomes `address`, `geometry.location` becomes
      `location`, `price_level` becomes `priceLevel`, the rest keep their
      names, and the photos are mapped one by one. */
  function ToPlace(u: UpstreamPlace): Place {
    Place(
      u.place_id,
      u.name,
      u.formatted_address,
      match u.geometry case Some(g) => g.location case None => None,
      u.rating,
      u.price_level,
      u.types,
      match u.photos case Some(ps) => Some(MapPhotos(ps)) case None => None)
  }

  /** `results.map(...)`: one place per result, in order. */
  function MapPlaces(us: seq<UpstreamPlace>): (r: seq<Place>)
    ensures |r| == |us|
    ensures forall i :: 0 <= i < |us| ==> r[i] == ToPlace(us[i])
  {
    if us == [] then [] else [ToPlace(us[0])] + MapPlaces(us[1..])
  }

  /** `data.results?.map(...) || []`: no results gives no places; an array,
      even an empty one, is mapped element by element. */
  function Transform(b: UpstreamBody): (places: seq<Place>)
    ensures b.results.None? ==> places == []
    ensures b.results.Some? ==>
              (|places| == |b.results.value|
               && forall i :: 0 <= i < |places| ==> places[i] == ToPlace(b.results.value[i]))
  {
    match b.results
    case Some(us) => MapPlaces(us)
    case None => []
  }

  /** The upstream result a place reads back to. */
  function FromPlace(p: Place): UpstreamPlace {
    UpstreamPlace(
      p.id,
      p.name,
      p.address,
      match p.location case Some(l) => Some(Geometry(Some(l))) case None => None,
      p.rating,
      p.priceLevel,
      p.types,
      match p.photos
      case Some(ps) => Some(seq(|ps|, i requires 0 <= i < |ps| => UpstreamPhoto(ps[i].reference, ps[i].height, ps[i].width)))
      case None => None)
  }

  /** The mapping renames fields and drops nothing: every place comes back
      from the upstream result it reads back to, and an upstream result
      comes back from its place unless it had a `geometry` without a
      `location` (which the route reports as no location at all). */
  lemma {:induction false} MappingRoundTrip(p: Place, u: UpstreamPlace)
    ensures ToPlace(FromPlace(p)) == p
    ensures FromPlace(ToPlace(u)) == u <==> u.geometry != Some(Geometry(None))
  {
    if p.photos.Some? {
      var ps := p.photos.value;
      var back := MapPhotos(seq(|ps|, i requires 0 <= i < |ps| => UpstreamPhoto(ps[i].reference, ps[i].height, ps[i].width)));
      assert back == ps;
    }
    if u.photos.Some? {
      var ups := u.photos.value;
      var mapped := MapPhotos(ups);
      var back := seq(|mapped|, i requires 0 <= i < |mapped| => UpstreamPhoto(mapped[i].reference, mapped[i].height, mapped[i].width));
      assert back == ups;
    }
  }

  // ---------------------------------------------------------------------
  // The handler

  /** The guards before any upstream call: a missing or empty `query` is
      answered 400 before the key is looked at; a missing or empty key 500;
      otherwise the Text Search request goes out. */
  function Guard(query: Option<string>, apiKey: Option<string>): (d: Decision)
    ensures (query.None? || query == Some("")) ==> d == Respond(Response(400, ErrorBody(QueryRequiredMessage)))
    ensures (query.Some? && query != Some("")) && (apiKey.None? || apiKey == Some("")) ==>
              d == Respond(Response(500, ErrorBody(KeyMissingMessage)))
    ensures d.CallUpstream? <==> query.Some? && query.value != "" && apiKey.Some? && apiKey.value != ""
    ensures d.CallUpstream? ==> d.request == TextSearch(query.value, apiKey.value)
  {
    if query.None? || query.value == "" then Respond(Response(400, ErrorBody(QueryRequiredMessage)))
    else if apiKey.None? || apiKey.value == "" then Respond(Response(500, ErrorBody(KeyMissingMessage)))
    else CallUpstream(TextSearch(query.value, apiKey.value))
  }

  /** The answer once the upstream call is over: 200 with the places when
      the upstream answered ok with status OK or ZERO_RESULTS; 500 "Failed to
      fetch places" for every other outcome. */
  function Finish(o: Outcome): (r: Response)
    ensures r.status == 200 <==> o.Answered? && o.ok && o.json.Some?
                                 && o.json.value.status in {Some("OK"), Some("ZERO_RESULTS")}
    ensures r.status == 200 ==> r.body == PlacesBody(Transform(o.json.value))
    ensures r.status != 200 ==> r == Response(500, ErrorBody(FetchFailedMessage))
  {
    match o
    case Threw => Response(500, ErrorBody(FetchFailedMessage))
    case Answered(ok, json) =>
      if !ok then Response(500, ErrorBody(FetchFailedMessage))
      else match json
        case None => Response(500, ErrorBody(FetchFailedMessage))
        case Some(b) =>
          if b.status != Some("OK") && b.status != Some("ZERO_RESULTS") then Response(500, ErrorBody(FetchFailedMessage))
          else Response(200, PlacesBody(Transform(b)))
  }

  /** `GET`, given what the upstream would do if called. */
  function Get(query: Option<string>, apiKey: Option<string>, upstream: Outcome): Response {
    match Guard(query, apiKey)
    case Respond(r) => r
    case CallUpstream(_) => Finish(upstream)
  }

  /** Every answer of the route is one of four: the places (200), the
      missing query (400), the missing key (500) or the upstream failure
      (500); and when it answers from a guard the upstream plays no part. */
  lemma GetAnswers(query: Option<string>, apiKey: Option<string>, o1: Outcome, o2: Outcome)
    ensures var r := Get(query, apiKey, o1);
      || (r.status == 200 && r.body.PlacesBody?)
      || r == Response(400, ErrorBody(QueryRequiredMessage))
      || r == Response(500, ErrorBody(KeyMissingMessage))
      || r == Response(500, ErrorBody(FetchFailedMessage))
    ensures Guard(query, apiKey).Respond? ==> Get(query, apiKey, o1) == Get(query, apiKey, o2)
  {
  }
}
