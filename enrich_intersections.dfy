/** The one-off enrichment script: every raw intersection read from the data
    file is copied with the name of its nearest borough centroid added,
    nearest by great-circle distance. */
module EnrichIntersections {
  import opened Results
  import opened Boroughs
  import opened PyJson

  /** The keys of an enriched record. */
  const ENRICHED_KEYS: set<string> := {"id", "lat", "lon", "nearest_borough"}

  /** One coordinate as geopy's `Point` normalises it: `float(x or 0.0)`.
      The script itself never converts `lat` or `lon`. */
  function GeoFloat(x: Json, parse: string -> Option<real>): (r: Result<real>)
    ensures !Truthy(x) ==> r == Ok(0.0)
    ensures x.JNum? ==> r == Ok(x.n)
    ensures (x.JList? || x.JObj?) && Truthy(x) ==> r == Err(TYPE_ERROR)
    ensures x.JStr? && x.s != "" ==> (r.Ok? <==> parse(x.s).Some?)
  {
    if Truthy(x) then ToFloat(x, parse) else Ok(0.0)
  }

  /** Both coordinates of a raw point can be read with `pt[...]`. */
  predicate Reads(pt: Json)
  {
    Subscript(pt, "lat").Ok? && Subscript(pt, "lon").Ok?
  }

  /** geopy's `Point(lat, lon)` takes its single-argument path: a latitude
      is given and the longitude is None. */
  predicate SingleArgument(lat: Json, lon: Json)
  {
    !lat.JNull? && lon.JNull?
  }

  /** The point `great_circle((lat, lon), ...)` builds from a raw point. Both
      fields are read with `pt[...]`. With a latitude and a null longitude,
      geopy refuses a single number (or bool) with ValueError and otherwise
      reads the latitude alone as a whole point (`single`). In every other
      case each field is normalised by GeoFloat and a latitude outside
      [-90, 90] is rejected with ValueError. */
  function PointCoord(pt: Json, parse: string -> Option<real>, single: Json -> Result<Coord>): (r: Result<Coord>)
    ensures !Reads(pt) ==> r.Err?
    ensures Reads(pt) && SingleArgument(pt.fields["lat"], pt.fields["lon"]) ==>
      r == if pt.fields["lat"].JNum? || pt.fields["lat"].JBool? then Err(VALUE_ERROR) else single(pt.fields["lat"])
    ensures Reads(pt) && !SingleArgument(pt.fields["lat"], pt.fields["lon"]) ==>
      (r.Ok? <==>
        GeoFloat(pt.fields["lat"], parse).Ok? && GeoFloat(pt.fields["lon"], parse).Ok? &&
        -90.0 <= GeoFloat(pt.fields["lat"], parse).value <= 90.0)
    ensures Reads(pt) && !SingleArgument(pt.fields["lat"], pt.fields["lon"]) && r.Ok? ==>
      r.value == (GeoFloat(pt.fields["lat"], parse).value, GeoFloat(pt.fields["lon"], parse).value)
    ensures (Reads(pt) && !SingleArgument(pt.fields["lat"], pt.fields["lon"]) &&
             GeoFloat(pt.fields["lat"], parse).Ok? && GeoFloat(pt.fields["lon"], parse).Ok? &&
             !(-90.0 <= GeoFloat(pt.fields["lat"], parse).value <= 90.0))
      ==> r == Err(VALUE_ERROR)
  {
    var lat := Subscript(pt, "lat");
    if lat.Err? then Err(lat.error)
    else
      var lon := Subscript(pt, "lon");
      if lon.Err? then Err(lon.error)
      else if SingleArgument(lat.value, lon.value) then
        if lat.value.JNum? || lat.value.JBool? then Err(VALUE_ERROR) else single(lat.value)
      else
        var la := GeoFloat(lat.value, parse);
        if la.Err? then Err(la.error)
        else
          var lo := GeoFloat(lon.value, parse);
          if lo.Err? then Err(lo.error)
          else if !(-90.0 <= la.value <= 90.0) then Err(VALUE_ERROR)
          else Ok((la.value, lo.value))
  }

  /** One loop iteration's record: `id`, `lat` and `lon` copied as read,
      and the nearest centroid's name. Reading `id` comes last, after the
      nearest borough is known. */
  function EnrichOne(pt: Json, parse: string -> Option<real>, dist: (Coord, Coord) -> real,
                     single: Json -> Result<Coord>): (r: Result<map<string, Json>>)
    ensures r.Ok? <==> PointCoord(pt, parse, single).Ok? && Subscript(pt, "id").Ok?
    ensures r.Ok? ==> r.value.Keys == ENRICHED_KEYS
    ensures r.Ok? ==>
      r.value["id"] == pt.fields["id"] && r.value["lat"] == pt.fields["lat"] && r.value["lon"] == pt.fields["lon"]
    ensures r.Ok? ==> r.value["nearest_borough"] == JStr(NearestBorough(PointCoord(pt, parse, single).value, dist))
    ensures r.Ok? ==> r.value["nearest_borough"].s in Names()
  {
    var p := PointCoord(pt, parse, single);
    if p.Err? then Err(p.error)
    else
      var borough := NearestBorough(p.value, dist);
      var id := Subscript(pt, "id");
      if id.Err? then Err(id.error)
      else Ok(map["id" := id.value, "lat" := pt.fields["lat"], "lon" := pt.fields["lon"],
                  "nearest_borough" := JStr(borough)])
  }

  /** Some point raises `error`, and every point before it is enriched. */
  predicate FailsFirstAt(raw: seq<Json>, parse: string -> Option<real>, dist: (Coord, Coord) -> real,
                         single: Json -> Result<Coord>, error: string)
  {
    exists i :: 0 <= i < |raw| && EnrichOne(raw[i], parse, dist, single) == Err(error) &&
      forall j :: 0 <= j < i ==> EnrichOne(raw[j], parse, dist, single).Ok?
  }

  /** A failing point after enriched ones is the first failure. */
  lemma FirstFailure(raw: seq<Json>, parse: string -> Option<real>, dist: (Coord, Coord) -> real,
                     single: Json -> Result<Coord>, i: nat, error: string)
    requires i < |raw| && EnrichOne(raw[i], parse, dist, single) == Err(error)
    requires forall j :: 0 <= j < i ==> EnrichOne(raw[j], parse, dist, single).Ok?
    ensures FailsFirstAt(raw, parse, dist, single, error)
    ensures !forall j :: 0 <= j < |raw| ==> EnrichOne(raw[j], parse, dist, single).Ok?
  {
  }

  /** The enrichment loop. It stops at the first point whose fields cannot
      be read or whose coordinates geopy rejects, with that point's
      exception; otherwise it yields one enriched record per raw point, in
      order. */
  method Enrich(raw: seq<Json>, parse: string -> Option<real>, dist: (Coord, Coord) -> real,
                single: Json -> Result<Coord>)
    returns (r: Result<seq<map<string, Json>>>)
    ensures r.Ok? <==> forall i :: 0 <= i < |raw| ==> EnrichOne(raw[i], parse, dist, single).Ok?
    ensures r.Ok? ==> |r.value| == |raw|
    ensures r.Ok? ==> forall i :: 0 <= i < |raw| ==> r.value[i] == EnrichOne(raw[i], parse, dist, single).value
    ensures r.Err? ==> FailsFirstAt(raw, parse, dist, single, r.error)
  {
    var enriched: seq<map<string, Json>> := [];
    var i := 0;
    while i < |raw|
      invariant 0 <= i <= |raw|
      invariant |enriched| == i
      invariant forall j :: 0 <= j < i ==> EnrichOne(raw[j], parse, dist, single) == Ok(enriched[j])
      invariant forall j :: 0 <= j < i ==> EnrichOne(raw[j], parse, dist, single).Ok?
    {
      var record := EnrichOne(raw[i], parse, dist, single);
      if record.Err? {
        FirstFailure(raw, parse, dist, single, i, record.error);
        return Err(record.error);
      }
      enriched := enriched + [record.value];
      i := i + 1;
    }
    return Ok(enriched);
  }

  /** A point whose latitude is null is still enriched: geopy reads the
      latitude as 0.0, and the record keeps the null as read. */
  lemma NullLatitudeEnriched(parse: string -> Option<real>, dist: (Coord, Coord) -> real,
                                single: Json -> Result<Coord>)
    ensures var pt := JObj(map["id" := JNum(1.0), "lat" := JNull, "lon" := JNum(-73.9)]);
      var r := EnrichOne(pt, parse, dist, single);
      r.Ok? && r.value["lat"] == JNull &&
      r.value["nearest_borough"] == JStr(NearestBorough((0.0, -73.9), dist))
  {
    var pt := JObj(map["id" := JNum(1.0), "lat" := JNull, "lon" := JNum(-73.9)]);
    assert PointCoord(pt, parse, single) == Ok((0.0, -73.9));
  }

  /** A latitude beyond the poles makes the loop stop with ValueError. */
  lemma LatitudeOutOfRangeRaises(parse: string -> Option<real>, dist: (Coord, Coord) -> real,
                                single: Json -> Result<Coord>)
    ensures EnrichOne(JObj(map["id" := JNum(2.0), "lat" := JNum(91.0), "lon" := JNum(0.0)]), parse, dist, single)
      == Err(VALUE_ERROR)
  {
    var pt := JObj(map["id" := JNum(2.0), "lat" := JNum(91.0), "lon" := JNum(0.0)]);
    assert PointCoord(pt, parse, single) == Err(VALUE_ERROR);
  }

  /** A numeric latitude with a null longitude makes geopy refuse the point
      with ValueError, so the loop stops there. */
  lemma NullLongitudeRaises(parse: string -> Option<real>, dist: (Coord, Coord) -> real,
                            single: Json -> Result<Coord>)
    ensures EnrichOne(JObj(map["id" := JNum(1.0), "lat" := JNum(40.7), "lon" := JNull]), parse, dist, single)
      == Err(VALUE_ERROR)
  {
    var pt := JObj(map["id" := JNum(1.0), "lat" := JNum(40.7), "lon" := JNull]);
    assert PointCoord(pt, parse, single) == Err(VALUE_ERROR);
  }
}
