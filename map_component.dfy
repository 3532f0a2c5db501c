/** The map's camera state (center, zoom and the boundary overlay of the last
    search), the GeoJSON ring built from a geocoder bounding box, and the check
    that guards creating a record on a map click. */
module MapComponent {
  import opened Records

  /** `defaultCenter`, `[lat, lng]` of Seoul City Hall. */
  const DefaultCenter: LatLng := LatLng(37.5666791, 126.9782914)
  /** `defaultZoom`. */
  const DefaultZoom: int := 15
  /** The zoom set when the map moves to a chosen record. */
  const FocusZoom: int := 20

  // ---------------------------------------------------------------------------
  // GeoJSON boundary
  // ---------------------------------------------------------------------------

  /** A GeoJSON position, `[longitude, latitude]` (RFC 7946 section 3.1.1). */
  datatype Position = Position(lng: real, lat: real)

  datatype Polygon = Polygon(rings: seq<seq<Position>>)
  datatype Feature = Feature(geometry: Polygon)
  datatype FeatureCollection = FeatureCollection(features: seq<Feature>)

  /** The size and closure conditions RFC 7946 section 3.1.6 puts on a linear
      ring: four or more positions, the first equal to the last. The section's
      winding rule (exterior rings counterclockwise) is not part of this
      predicate; `RingWindsClockwise` shows the app's ring breaks it. */
  predicate IsLinearRing(ring: seq<Position>)
  {
    |ring| >= 4 && ring[0] == ring[|ring| - 1]
  }

  /** The corner of a bounding box at the given latitude and longitude, as a
      GeoJSON position. */
  function Corner(lat: real, lng: real): Position
  {
    Position(lng, lat)
  }

  /** The bounding box a ring was drawn from: its first point is the
      south-west corner and its third the north-east one. */
  function BoxOfRing(ring: seq<Position>): (box: (LatLng, LatLng))
    requires |ring| >= 3
  {
    (LatLng(ring[0].lat, ring[0].lng), LatLng(ring[2].lat, ring[2].lng))
  }

  /** The polygon ring drawn around a search result: south-west, north-west,
      north-east, south-east and back to south-west. */
  function BoundaryRing(southwest: LatLng, northeast: LatLng): (ring: seq<Position>)
    ensures |ring| == 5 && IsLinearRing(ring)
    ensures ring[0] == Corner(southwest.lat, southwest.lng)
    ensures ring[1] == Corner(northeast.lat, southwest.lng)
    ensures ring[2] == Corner(northeast.lat, northeast.lng)
    ensures ring[3] == Corner(southwest.lat, northeast.lng)
    ensures BoxOfRing(ring) == (southwest, northeast)
  {
    [ Position(southwest.lng, southwest.lat),
      Position(southwest.lng, northeast.lat),
      Position(northeast.lng, northeast.lat),
      Position(northeast.lng, southwest.lat),
      Position(southwest.lng, southwest.lat) ]
  }

  /** The ring's four corners are four different points exactly when the box
      has both a height and a width. */
  lemma RingCornersDistinct(southwest: LatLng, northeast: LatLng)
    ensures (forall i, j :: 0 <= i < j < 4 ==> BoundaryRing(southwest, northeast)[i] != BoundaryRing(southwest, northeast)[j])
            <==> southwest.lat != northeast.lat && southwest.lng != northeast.lng
  {
    var ring := BoundaryRing(southwest, northeast);
    if southwest.lat == northeast.lat {
      assert ring[0] == ring[1];
    } else if southwest.lng == northeast.lng {
      assert ring[0] == ring[3];
    }
  }

  /** Twice the signed area of a closed ring (the shoelace sum), with
      longitude as x and latitude as y; negative means clockwise. */
  function TwiceSignedArea(ring: seq<Position>): real
  {
    if |ring| < 2 then 0.0
    else ring[0].lng * ring[1].lat - ring[1].lng * ring[0].lat + TwiceSignedArea(ring[1..])
  }

  /** For a box whose north-east corner lies north and east of its south-west
      corner the ring winds clockwise. RFC 7946 section 3.1.6 says a linear
      ring MUST follow the right-hand rule (exterior rings counterclockwise);
      only its advice to parsers, not to reject such rings, is a SHOULD NOT. */
  lemma RingWindsClockwise(southwest: LatLng, northeast: LatLng)
    requires southwest.lat < northeast.lat && southwest.lng < northeast.lng
    ensures TwiceSignedArea(BoundaryRing(southwest, northeast)) < 0.0
  {
    var ring := BoundaryRing(southwest, northeast);
    var w, s, e, n := southwest.lng, southwest.lat, northeast.lng, northeast.lat;
    assert TwiceSignedArea(ring[4..]) == 0.0;
    assert TwiceSignedArea(ring[3..]) == e * s - w * s by { assert ring[3..][1..] == ring[4..]; }
    assert TwiceSignedArea(ring[2..]) == (e * s - e * n) + (e * s - w * s) by { assert ring[2..][1..] == ring[3..]; }
    assert TwiceSignedArea(ring[1..]) == (w * n - e * n) + (e * s - e * n) + (e * s - w * s) by { assert ring[1..][1..] == ring[2..]; }
    assert TwiceSignedArea(ring) == 2.0 * (w - e) * (n - s);
    assert (e - w) * (n - s) > 0.0;
  }

  /** A search for Seoul whose box runs from (37.4, 126.8) to (37.7, 127.2). */
  lemma SeoulBoundary()
    ensures BoundaryRing(LatLng(37.4, 126.8), LatLng(37.7, 127.2)) ==
            [Position(126.8, 37.4), Position(126.8, 37.7), Position(127.2, 37.7), Position(127.2, 37.4), Position(126.8, 37.4)]
  {
  }

  /** `geoJSONData`: one feature whose polygon has the boundary ring as its
      only ring. */
  function BoundaryData(southwest: LatLng, northeast: LatLng): (data: FeatureCollection)
    ensures |data.features| == 1 && |data.features[0].geometry.rings| == 1
    ensures IsLinearRing(data.features[0].geometry.rings[0])
    ensures BoxOfRing(data.features[0].geometry.rings[0]) == (southwest, northeast)
  {
    FeatureCollection([Feature(Polygon([BoundaryRing(southwest, northeast)]))])
  }

  // ---------------------------------------------------------------------------
  // Geocoder responses
  // ---------------------------------------------------------------------------

  /** A result's `bounds` object; either corner may be missing. */
  datatype Bounds = Bounds(southwest: Option<LatLng>, northeast: Option<LatLng>)

  /** One geocoder result: its point and, when the geocoder gives one, its
      bounding box. */
  datatype GeocodeResult = GeocodeResult(geometry: LatLng, bounds: Option<Bounds>)

  /** The outcome of the geocoder request: it throws, or it answers with a
      result list (`None` when the response has no data or no results field). */
  datatype GeocodeResponse = RequestThrew | Responded(results: Option<seq<GeocodeResult>>)

  /** What the search handler signals besides the state it sets. */
  datatype SearchSignal = Moved | NotFoundAlert | ErrorLogged

  /** Whether the handler gets as far as `setCenter`: the reply has a
      non-empty result list and its first result has a `bounds` object (the
      destructuring of a missing one throws first). */
  predicate Recenters(response: GeocodeResponse)
  {
    response.Responded? && response.results.Some? && |response.results.value| > 0 &&
    response.results.value[0].bounds.Some?
  }

  /** How the search handler classifies a response: moved to the first result
      with a new boundary, "Location not found" for a missing or empty result
      list, and a logged error when the request throws, the first result has
      no bounds, or its bounds lack a corner (reading that corner throws after
      the center was set). */
  function Classify(response: GeocodeResponse): (signal: SearchSignal)
    ensures signal == Moved <==>
              Recenters(response) &&
              response.results.value[0].bounds.value.southwest.Some? &&
              response.results.value[0].bounds.value.northeast.Some?
    ensures signal == NotFoundAlert <==>
              response.Responded? && (response.results.None? || |response.results.value| == 0)
  {
    match response
    case RequestThrew => ErrorLogged
    case Responded(results) =>
      if results.Some? && |results.value| > 0 then
        match results.value[0].bounds
        case None => ErrorLogged
        case Some(b) => if b.southwest.Some? && b.northeast.Some? then Moved else ErrorLogged
      else NotFoundAlert
  }

  // ---------------------------------------------------------------------------
  // Record creation on a map click
  // ---------------------------------------------------------------------------

  /** The record literal `initializeFirestore` writes. */
  function NewRecord(lat: real, lng: real, name: string, description: string): Fields
  {
    Fields(name, description, None, LatLng(lat, lng), [], [])
  }

  /** `handleMapClick`: the record to create for a click at `(lat, lng)` after
      the two prompts answered `name` and `description` (`None` for a
      cancelled prompt). A record is written only when both answers are
      non-empty; it carries no country, no comments and no photos. */
  function MapClickRecord(lat: real, lng: real, name: Option<string>, description: Option<string>): (r: Option<Fields>)
    ensures r.Some? <==> name.Some? && name.value != "" && description.Some? && description.value != ""
    ensures r.Some? ==>
              r.value.name == name.value && r.value.description == description.value &&
              r.value.coordinates == LatLng(lat, lng) && r.value.country == None &&
              r.value.comments == [] && r.value.photos == []
  {
    if name.Some? && name.value != "" && description.Some? && description.value != "" then
      Some(NewRecord(lat, lng, name.value, description.value))
    else
      None
  }

  // ---------------------------------------------------------------------------
  // The component's state
  // ---------------------------------------------------------------------------

  /** The state cells of the map component. */
  class MapView {
    var locations: seq<Location>
    var center: LatLng
    var zoom: int
    var boundary: Option<FeatureCollection>

    constructor ()
      ensures locations == [] && center == DefaultCenter && zoom == DefaultZoom && boundary == None
    {
      locations := [];
      center := DefaultCenter;
      zoom := DefaultZoom;
      boundary := None;
    }

    /** The `currentLocation` effect: a chosen record moves the center to its
        coordinates and the zoom to 20, whatever it was; no record changes
        nothing. The boundary overlay is never touched. */
    method MoveTo(current: Option<Location>)
      modifies this
      ensures current.Some? ==> center == current.value.coordinates() && zoom == FocusZoom
      ensures current.None? ==> center == old(center) && zoom == old(zoom)
      ensures boundary == old(boundary) && locations == old(locations)
    {
      if current.Some? {
        center := current.value.coordinates();
        zoom := FocusZoom;
      }
    }

    /** The snapshot effect: the map's marker list is replaced by the new
        snapshot; the camera is left alone. */
    method ApplySnapshot(docs: seq<Doc>)
      modifies this
      ensures locations == FromSnapshot(docs)
      ensures center == old(center) && zoom == old(zoom) && boundary == old(boundary)
    {
      locations := FromSnapshot(docs);
    }

    /** `handleSearch` once the geocoder request has settled. A first result
        with a `bounds` object moves the center to it; when both corners are
        there the overlay is replaced by their box, and otherwise the ring
        construction throws and the old overlay stays. A missing or empty
        result list, a thrown request or a missing `bounds` leaves the camera
        as it was. The zoom is never changed. */
    method Search(response: GeocodeResponse) returns (signal: SearchSignal)
      modifies this
      ensures signal == Classify(response)
      ensures Recenters(response) ==> center == response.results.value[0].geometry
      ensures !Recenters(response) ==> center == old(center)
      ensures signal == Moved ==>
                var bounds := response.results.value[0].bounds.value;
                boundary == Some(BoundaryData(bounds.southwest.value, bounds.northeast.value))
      ensures signal != Moved ==> boundary == old(boundary)
      ensures zoom == old(zoom) && locations == old(locations)
    {
      match response {
        case RequestThrew =>
          signal := ErrorLogged;
        case Responded(results) =>
          if results.Some? && |results.value| > 0 {
            var result := results.value[0];
            match result.bounds {
              case None =>
                signal := ErrorLogged;
              case Some(bounds) =>
                center := result.geometry;
                if bounds.southwest.Some? && bounds.northeast.Some? {
                  boundary := Some(BoundaryData(bounds.southwest.value, bounds.northeast.value));
                  signal := Moved;
                } else {
                  signal := ErrorLogged;
                }
            }
          } else {
            signal := NotFoundAlert;
          }
      }
    }
  }
}
