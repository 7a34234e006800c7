/**
 * The bike-route HTTP handlers that compute something: creating a route
 * from an uploaded GPX file (POST), fetching one route (GET by id) and
 * listing all routes (GET).
 *
 * Each handler is a function from the request's relevant parts and the
 * outcome of its collaborators (the GPX-to-GeoJSON converter, the store)
 * to the response it sends; the POST handler also returns the record it
 * asks the store to create, if any.
 */
module BikeRoutes {
  import opened Wrappers
  import opened GeoUtils

  /** A GeoJSON geometry: its `type` and, for a LineString, its positions. */
  datatype Geometry = Geometry(kind: string, coordinates: seq<Position>)

  /** A GeoJSON feature; its geometry may be `null`. */
  datatype Feature = Feature(geometry: Option<Geometry>)

  /** The GeoJSON document the GPX converter produces. */
  datatype FeatureCollection = FeatureCollection(features: seq<Feature>)

  /** The stored start point: a GeoJSON Point. */
  datatype StartPoint = StartPoint(kind: string, coordinates: seq<real>)

  /** The fields the POST handler hands to the store. */
  datatype RouteData = RouteData(
    name: string,
    description: Option<string>,
    geoJSON: FeatureCollection,
    distance: real,
    elevationGain: int,
    startPoint: StartPoint)

  /** A stored route: the stored fields plus the identifier and the creation and update times the store adds. */
  datatype BikeRoute = BikeRoute(id: string, createdAt: string, updatedAt: string, data: RouteData)

  /** A JSON response body. */
  datatype Body = ErrorBody(error: string) | RouteBody(route: BikeRoute) | RouteListBody(routes: seq<BikeRoute>)

  datatype Response = Response(status: int, body: Body)

  /** What the store did with a create request: the record it returns, or a failure. */
  datatype CreateOutcome = Created(route: BikeRoute) | CreateFailed

  /** What the store returned for a lookup by id. */
  datatype LookupOutcome = Found(route: BikeRoute) | NotFound | LookupFailed

  /** The result of searching the features for the first LineString. */
  datatype Search = LineAt(index: nat) | NoLine | ThrewAt(index: nat)

  const FileRequired: string := "GPX file is required"
  const NameRequired: string := "Name is required"
  const NoLineString: string := "No LineString found in GPX"
  const InternalError: string := "Internal server error"
  const RouteNotFound: string := "Route not found"

  /** JavaScript truthiness of an optional string field: present and not empty. */
  predicate Truthy(s: Option<string>)
  {
    s.Some? && s.value != ""
  }

  /** A feature the search passes over: it has a geometry of another type. */
  predicate PassedOver(f: Feature)
  {
    f.geometry.Some? && f.geometry.value.kind != "LineString"
  }

  /**
   * `features.find(f => f.geometry.type === 'LineString')`: the first feature
   * whose geometry is a LineString, or the first feature whose null geometry
   * makes the callback throw, whichever comes first.
   */
  function FindLineString(fs: seq<Feature>): (r: Search)
    ensures r.LineAt? ==> r.index < |fs| && fs[r.index].geometry.Some? && fs[r.index].geometry.value.kind == "LineString"
    ensures r.ThrewAt? ==> r.index < |fs| && fs[r.index].geometry.None?
    ensures r.LineAt? || r.ThrewAt? ==> forall j :: 0 <= j < r.index ==> PassedOver(fs[j])
    ensures r.NoLine? <==> forall j :: 0 <= j < |fs| ==> PassedOver(fs[j])
  {
    if |fs| == 0 then NoLine
    else match fs[0].geometry
      case None => ThrewAt(0)
      case Some(g) =>
        if g.kind == "LineString" then LineAt(0)
        else match FindLineString(fs[1..])
          case LineAt(i) => LineAt(i + 1)
          case ThrewAt(i) => ThrewAt(i + 1)
          case NoLine => NoLine
  }

  /** `coords[0].slice(0, 2)` wrapped as a GeoJSON Point. */
  function StartPointOf(first: Position): (p: StartPoint)
    ensures p.kind == "Point"
    ensures |p.coordinates| == if |first| < 2 then |first| else 2
    ensures p.coordinates <= first
  {
    StartPoint("Point", if |first| < 2 then first else first[..2])
  }

  /** What the POST handler did: the response it sent and the record, if any, it asked the store to create. */
  datatype Handled = Handled(response: Response, createRequest: Option<RouteData>)

  /**
   * POST `/`: create a route from an uploaded GPX file.
   * `hasFile` is whether a file was uploaded, `parsed` the converter's
   * GeoJSON (None when parsing threw), `segment` the Haversine segment
   * distance and `store` how the store answers a create request.
   */
  function CreateRoute(hasFile: bool, name: Option<string>, description: Option<string>,
                       parsed: Option<FeatureCollection>, segment: PairTerm,
                       store: RouteData -> CreateOutcome): (h: Handled)
    // The file check comes first, then the name check, then the LineString search.
    ensures !hasFile ==> h == Handled(Response(400, ErrorBody(FileRequired)), None)
    ensures hasFile && !Truthy(name) ==> h == Handled(Response(400, ErrorBody(NameRequired)), None)
    ensures hasFile && Truthy(name) && parsed.Some? && FindLineString(parsed.value.features).NoLine? ==>
              h == Handled(Response(400, ErrorBody(NoLineString)), None)
    ensures h.response.status in {201, 400, 500}
    ensures h.response.status == 400 <==>
              !hasFile || !Truthy(name) || (parsed.Some? && FindLineString(parsed.value.features).NoLine?)
    // The store is asked to create a record exactly when every guard passes and the LineString has a position.
    ensures h.createRequest.Some? <==>
              hasFile && Truthy(name) && parsed.Some? &&
              var search := FindLineString(parsed.value.features);
              search.LineAt? && |parsed.value.features[search.index].geometry.value.coordinates| > 0
    ensures h.createRequest.Some? ==>
              var doc := parsed.value;
              var coords := doc.features[FindLineString(doc.features).index].geometry.value.coordinates;
              h.createRequest.value ==
                RouteData(name.value, description, doc, DistanceMiles(segment, coords),
                          ElevationGainFeet(coords), StartPointOf(coords[0]))
    ensures h.response.status == 201 <==> h.createRequest.Some? && store(h.createRequest.value).Created?
    ensures h.response.status == 201 ==>
              h.response.body == RouteBody(store(h.createRequest.value).route)
    ensures h.response.status == 500 ==> h.response.body == ErrorBody(InternalError)
  {
    if !hasFile then Handled(Response(400, ErrorBody(FileRequired)), None)
    else if !Truthy(name) then Handled(Response(400, ErrorBody(NameRequired)), None)
    else match parsed
      case None => Handled(Response(500, ErrorBody(InternalError)), None)
      case Some(doc) =>
        match FindLineString(doc.features)
        case ThrewAt(_) => Handled(Response(500, ErrorBody(InternalError)), None)
        case NoLine => Handled(Response(400, ErrorBody(NoLineString)), None)
        case LineAt(i) =>
          var coords := doc.features[i].geometry.value.coordinates;
          // `coords[0].slice` throws on an empty LineString, before the store is called.
          if |coords| == 0 then Handled(Response(500, ErrorBody(InternalError)), None)
          else
            var data := RouteData(name.value, description, doc, DistanceMiles(segment, coords),
                                  ElevationGainFeet(coords), StartPointOf(coords[0]));
            match store(data)
            case CreateFailed => Handled(Response(500, ErrorBody(InternalError)), Some(data))
            case Created(route) => Handled(Response(201, RouteBody(route)), Some(data))
  }

  /** Features after the first LineString play no part in the search. */
  lemma {:induction false} LaterFeaturesIgnored(fs: seq<Feature>, more: seq<Feature>)
    requires FindLineString(fs).LineAt?
    ensures FindLineString(fs + more) == FindLineString(fs)
  {
    assert fs != [];
    if fs[0].geometry.Some? && fs[0].geometry.value.kind != "LineString" {
      assert (fs + more)[1..] == fs[1..] + more;
      LaterFeaturesIgnored(fs[1..], more);
    }
  }

  /** Once a LineString is found, features after it change nothing but the document handed to the store. */
  lemma LaterFeaturesIgnoredByCreate(hasFile: bool, name: Option<string>, description: Option<string>,
                                      fs: seq<Feature>, more: seq<Feature>, segment: PairTerm,
                                      store: RouteData -> CreateOutcome)
    requires FindLineString(fs).LineAt?
    ensures
      var h1 := CreateRoute(hasFile, name, description, Some(FeatureCollection(fs)), segment, store);
      var h2 := CreateRoute(hasFile, name, description, Some(FeatureCollection(fs + more)), segment, store);
      (h1.response.status == 400 <==> h2.response.status == 400) &&
      (h1.createRequest.Some? <==> h2.createRequest.Some?) &&
      (h1.createRequest.Some? ==>
        var d1, d2 := h1.createRequest.value, h2.createRequest.value;
        d1.distance == d2.distance && d1.elevationGain == d2.elevationGain && d1.startPoint == d2.startPoint)
  {
    LaterFeaturesIgnored(fs, more);
    var i := FindLineString(fs).index;
    assert (fs + more)[i] == fs[i];
  }

  /** GET `/:id`: the stored route, 404 when there is none, 500 when the store fails. */
  function GetRoute(lookup: LookupOutcome): (r: Response)
    ensures r.status == 200 <==> lookup.Found?
    ensures lookup.Found? ==> r.body == RouteBody(lookup.route)
    ensures lookup.NotFound? ==> r == Response(404, ErrorBody(RouteNotFound))
    ensures lookup.LookupFailed? ==> r == Response(500, ErrorBody(InternalError))
  {
    match lookup
    case Found(route) => Response(200, RouteBody(route))
    case NotFound => Response(404, ErrorBody(RouteNotFound))
    case LookupFailed => Response(500, ErrorBody(InternalError))
  }

  /** GET `/`: every stored route in the order the store returns them (newest first), or 500. */
  function ListRoutes(listing: Option<seq<BikeRoute>>): (r: Response)
    ensures r.status == 200 <==> listing.Some?
    ensures listing.Some? ==> r.body == RouteListBody(listing.value)
    ensures listing.None? ==> r == Response(500, ErrorBody(InternalError))
  {
    match listing
    case Some(routes) => Response(200, RouteListBody(routes))
    case None => Response(500, ErrorBody(InternalError))
  }
}
