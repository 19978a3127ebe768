/** The current-weather endpoint of the service: each borough's
    Open-Meteo "current" block renamed to three fields whose upstream values
    are kept as they are, then the all-or-nothing aggregation. */
module CurrentWeatherApi {
  import opened Results
  import opened PyJson
  import opened Boroughs
  import opened WeatherGather

  /** A per-borough record: upstream JSON values, not converted. */
  type RawRecord = map<string, Json>

  /** Output key and upstream key, in the order the record lists them. */
  const FIELDS: seq<(string, string)> := [
    ("temperature", "temperature_2m"),
    ("precipitation", "precipitation"),
    ("wind_speed", "wind_speed_10m")
  ]

  function ErrorRecord(msg: string): (r: RawRecord)
    ensures r.Keys == {"error"}
  {
    map["error" := JStr(msg)]
  }

  /** `data.get("current", {})` and the three `current.get(key, 0)` lookups. */
  function Normalise(data: Json): (r: Result<RawRecord>)
    ensures r.Ok? <==> data.JObj? && Get(data.fields, "current", JObj(map[])).JObj?
    ensures r.Ok? ==> r.value.Keys == {"temperature", "precipitation", "wind_speed"}
    ensures r.Ok? ==> forall i :: 0 <= i < |FIELDS| ==>
      var current := Get(data.fields, "current", JObj(map[])).fields;
      r.value[FIELDS[i].0] == if FIELDS[i].1 in current then current[FIELDS[i].1] else JNum(0.0)
  {
    match GetAttr(data, "current", JObj(map[]))
    case Err(e) => Err(e)
    case Ok(current) =>
      if !current.JObj? then Err(ATTRIBUTE_ERROR)
      else
        var c := current.fields;
        assert FIELDS[0] == ("temperature", "temperature_2m") && FIELDS[1] == ("precipitation", "precipitation");
        assert FIELDS[2] == ("wind_speed", "wind_speed_10m");
        Ok(map["temperature" := Get(c, "temperature_2m", JNum(0.0)),
               "precipitation" := Get(c, "precipitation", JNum(0.0)),
               "wind_speed" := Get(c, "wind_speed_10m", JNum(0.0))])
  }

  /** `fetch_borough_weather`: the borough's name with its record, or with
      `{"error": msg}` when anything in the call raises. */
  function FetchBoroughWeather(borough: string, upstream: Upstream): (r: (string, RawRecord))
    ensures r.0 == borough
    ensures upstream.Failed? ==> r.1 == ErrorRecord(upstream.reason)
    ensures "error" in r.1 <==> upstream.Failed? || Normalise(upstream.data).Err?
    ensures "error" in r.1 ==> r.1.Keys == {"error"}
    ensures "error" !in r.1 ==> r.1 == Normalise(upstream.data).value
  {
    match upstream
    case Failed(reason) => (borough, ErrorRecord(reason))
    case Body(data) =>
      match Normalise(data)
      case Err(e) => (borough, ErrorRecord(e))
      case Ok(rec) => (borough, rec)
  }

  /** The five fetches, in BOROUGHS order. */
  function Gathered(upstream: string -> Upstream): (results: seq<(string, RawRecord)>)
    ensures Keys(results) == Names()
    ensures forall i :: 0 <= i < |results| ==>
      results[i] == FetchBoroughWeather(BOROUGHS[i].name, upstream(BOROUGHS[i].name))
  {
    seq(|BOROUGHS|, i requires 0 <= i < |BOROUGHS| =>
      FetchBoroughWeather(BOROUGHS[i].name, upstream(BOROUGHS[i].name)))
  }

  /** Pydantic's lax validation of one value as a `float`: a number is
      kept, a bool becomes 1.0 or 0.0, a string is accepted when it parses
      (`parseStr`, an input, as pydantic's number syntax is not modelled),
      and null, lists and dictionaries are rejected. With the same string
      parser it agrees with Python's `float()`. */
  function AsFloat(x: Json, parseStr: string -> Option<real>): (r: Option<real>)
    ensures x.JNum? ==> r == Some(x.n)
    ensures x.JBool? ==> r == Some(if x.b then 1.0 else 0.0)
    ensures r.Some? <==> ToFloat(x, parseStr).Ok?
    ensures r.Some? ==> r.value == ToFloat(x, parseStr).value
  {
    match x
    case JNum(n) => Some(n)
    case JBool(b) => Some(if b then 1.0 else 0.0)
    case JStr(s) => parseStr(s)
    case _ => None
  }

  /** Pydantic's check of one record against `Dict[str, float]`: every value
      must validate as a float. */
  predicate Validates(rec: RawRecord, parseStr: string -> Option<real>)
  {
    forall k :: k in rec ==> AsFloat(rec[k], parseStr).Some?
  }

  /** The record as the validated response holds it. */
  function Validated(rec: RawRecord, parseStr: string -> Option<real>): (r: map<string, real>)
    requires Validates(rec, parseStr)
    ensures r.Keys == rec.Keys
    ensures forall k :: k in rec ==> Some(r[k]) == AsFloat(rec[k], parseStr)
    ensures forall k :: k in rec && rec[k].JNum? ==> r[k] == rec[k].n
  {
    map k | k in rec :: AsFloat(rec[k], parseStr).value
  }

  /** Every record of `results` passes the response model's validation. */
  predicate AllValidate(results: seq<(string, RawRecord)>, parseStr: string -> Option<real>)
  {
    forall i :: 0 <= i < |results| ==> Validates(results[i].1, parseStr)
  }

  /** The validated `borough_weather` map of the response. */
  function ResponseBody(results: seq<(string, RawRecord)>, parseStr: string -> Option<real>)
    : (body: map<string, map<string, real>>)
    requires Distinct(Keys(results)) && AllValidate(results, parseStr)
    ensures body.Keys == set i | 0 <= i < |results| :: results[i].0
    ensures forall i :: 0 <= i < |results| ==> body[results[i].0] == Validated(results[i].1, parseStr)
  {
    assert forall i, j :: 0 <= i < j < |results| ==> results[i].0 != results[j].0 by {
      forall i, j | 0 <= i < j < |results|
        ensures results[i].0 != results[j].0
      {
        assert Keys(results)[i] == results[i].0 && Keys(results)[j] == results[j].0;
      }
    }
    map i | 0 <= i < |results| :: results[i].0 := Validated(results[i].1, parseStr)
  }

  /** `get_weather`: 400 if the datetime is not ISO 8601; 500 naming, in
      BOROUGHS order, every borough whose record has an "error" key;
      otherwise the borough map validated as the response model, where a
      number stays as it is. A value the validation rejects raises a ValueError inside the same `try`, so
      it too is answered with the 400 "Invalid datetime format". */
  function GetWeather(datetime: string, isoDate: string -> bool, upstream: string -> Upstream,
                      parseStr: string -> Option<real>)
    : (reply: Reply<map<string, map<string, real>>>)
    ensures !isoDate(datetime) ==> reply == HttpError(400, INVALID_DATETIME)
    ensures isoDate(datetime) && ErrorBoroughs(Gathered(upstream)) != [] ==>
      reply == HttpError(500, FailureDetail(ErrorBoroughs(Gathered(upstream))))
    ensures isoDate(datetime) && ErrorBoroughs(Gathered(upstream)) == [] && !AllValidate(Gathered(upstream), parseStr) ==>
      reply == HttpError(400, INVALID_DATETIME)
    ensures reply.Success? <==>
      isoDate(datetime) && AllValidate(Gathered(upstream), parseStr) &&
      forall i :: 0 <= i < |BOROUGHS| ==> "error" !in Gathered(upstream)[i].1
    ensures reply.Success? ==>
      reply.body.Keys == (set i | 0 <= i < |BOROUGHS| :: BOROUGHS[i].name) &&
      forall i :: 0 <= i < |BOROUGHS| ==>
        reply.body[BOROUGHS[i].name] == Validated(Gathered(upstream)[i].1, parseStr)
  {
    if !isoDate(datetime) then HttpError(400, INVALID_DATETIME)
    else
      var results := Gathered(upstream);
      var errors := ErrorBoroughs(results);
      if errors != [] then HttpError(500, FailureDetail(errors))
      else if !AllValidate(results, parseStr) then HttpError(400, INVALID_DATETIME)
      else
        NamesDistinct();
        Success(ResponseBody(results, parseStr))
  }

  /** The datetime is checked before any borough is fetched: a bad datetime
      gives the same 400 whatever the upstream would have answered. */
  lemma ParseBeforeFetch(datetime: string, isoDate: string -> bool, u1: string -> Upstream, u2: string -> Upstream,
                         parseStr: string -> Option<real>)
    requires !isoDate(datetime)
    ensures GetWeather(datetime, isoDate, u1, parseStr) == GetWeather(datetime, isoDate, u2, parseStr)
    ensures GetWeather(datetime, isoDate, u1, parseStr) == HttpError(400, INVALID_DATETIME)
  {
  }

  /** Every record that was normalised without error has exactly the three
      keys, so a successful reply holds three numbers per borough. */
  lemma SuccessHasThreeFields(datetime: string, isoDate: string -> bool, upstream: string -> Upstream,
                              parseStr: string -> Option<real>)
    ensures var reply := GetWeather(datetime, isoDate, upstream, parseStr);
      reply.Success? ==> forall b :: b in reply.body ==>
        reply.body[b].Keys == {"temperature", "precipitation", "wind_speed"}
  {
    var reply := GetWeather(datetime, isoDate, upstream, parseStr);
    if reply.Success? {
      forall b | b in reply.body
        ensures reply.body[b].Keys == {"temperature", "precipitation", "wind_speed"}
      {
        var i :| 0 <= i < |BOROUGHS| && BOROUGHS[i].name == b;
        var results := Gathered(upstream);
        assert "error" !in results[i].1;
      }
    }
  }

  /** The "current" dictionary of a body, empty when there is none. */
  function CurrentBlock(data: Json): (current: map<string, Json>)
    ensures data.JObj? && Get(data.fields, "current", JObj(map[])).JObj? ==>
      current == Get(data.fields, "current", JObj(map[])).fields
  {
    if data.JObj? && Get(data.fields, "current", JObj(map[])).JObj? then
      Get(data.fields, "current", JObj(map[])).fields
    else map[]
  }

  /** An upstream body whose "current" dictionary holds, under each of the
      three upstream keys, a number, a bool or nothing. */
  predicate NumericBody(u: Upstream)
  {
    u.Body? && u.data.JObj? && Get(u.data.fields, "current", JObj(map[])).JObj? &&
    forall j :: 0 <= j < |FIELDS| && FIELDS[j].1 in CurrentBlock(u.data) ==>
      CurrentBlock(u.data)[FIELDS[j].1].JNum? || CurrentBlock(u.data)[FIELDS[j].1].JBool?
  }

  /** The float a numeric "current" value validates to, 0 for an absent key. */
  function NumberOf(current: map<string, Json>, key: string): real
  {
    if key !in current then 0.0
    else match current[key]
      case JNum(n) => n
      case JBool(b) => if b then 1.0 else 0.0
      case _ => 0.0
  }

  /** A numeric, bool or absent "current" value validates to NumberOf. */
  lemma NumberValidates(current: map<string, Json>, key: string, parseStr: string -> Option<real>)
    requires key in current ==> current[key].JNum? || current[key].JBool?
    ensures AsFloat(Get(current, key, JNum(0.0)), parseStr) == Some(NumberOf(current, key))
  {
  }

  /** Such a body is fetched into a record without "error" that validates,
      holding NumberOf under each output name. */
  lemma FetchNumeric(borough: string, u: Upstream, parseStr: string -> Option<real>)
    requires NumericBody(u)
    ensures var rec := FetchBoroughWeather(borough, u).1;
      "error" !in rec && Validates(rec, parseStr) &&
      forall j :: 0 <= j < |FIELDS| ==>
        FIELDS[j].0 in rec && Validated(rec, parseStr)[FIELDS[j].0] == NumberOf(CurrentBlock(u.data), FIELDS[j].1)
  {
    var current := CurrentBlock(u.data);
    var rec := Normalise(u.data).value;
    assert FetchBoroughWeather(borough, u).1 == rec;
    assert FIELDS[0].0 == "temperature" && FIELDS[1].0 == "precipitation" && FIELDS[2].0 == "wind_speed";
    forall j | 0 <= j < |FIELDS|
      ensures AsFloat(rec[FIELDS[j].0], parseStr) == Some(NumberOf(current, FIELDS[j].1))
    {
      assert rec[FIELDS[j].0] == Get(current, FIELDS[j].1, JNum(0.0));
      NumberValidates(current, FIELDS[j].1, parseStr);
    }
    forall k | k in rec
      ensures AsFloat(rec[k], parseStr).Some?
    {
      var j :| 0 <= j < |FIELDS| && FIELDS[j].0 == k;
    }
  }

  /** On success, each upstream number in a borough's "current" block is
      returned unchanged under its output name. */
  lemma SuccessKeepsNumbers(datetime: string, isoDate: string -> bool, upstream: string -> Upstream,
                            parseStr: string -> Option<real>, i: nat, j: nat)
    requires i < |BOROUGHS| && j < |FIELDS|
    requires upstream(BOROUGHS[i].name).Body?
    requires var current := CurrentBlock(upstream(BOROUGHS[i].name).data);
      FIELDS[j].1 in current && current[FIELDS[j].1].JNum?
    ensures var reply := GetWeather(datetime, isoDate, upstream, parseStr);
      reply.Success? ==>
        FIELDS[j].0 in reply.body[BOROUGHS[i].name] &&
        reply.body[BOROUGHS[i].name][FIELDS[j].0] == CurrentBlock(upstream(BOROUGHS[i].name).data)[FIELDS[j].1].n
  {
    var reply := GetWeather(datetime, isoDate, upstream, parseStr);
    if reply.Success? {
      var data := upstream(BOROUGHS[i].name).data;
      var rec := Gathered(upstream)[i].1;
      assert "error" !in rec;
      NormaliseKeeps(data, j, rec);
      assert reply.body[BOROUGHS[i].name] == Validated(rec, parseStr);
    }
  }

  /** A record normalised without error holds each present upstream value
      under its output name. */
  lemma NormaliseKeeps(data: Json, j: nat, rec: RawRecord)
    requires j < |FIELDS| && Normalise(data) == Ok(rec)
    requires FIELDS[j].1 in CurrentBlock(data)
    ensures FIELDS[j].0 in rec && rec[FIELDS[j].0] == CurrentBlock(data)[FIELDS[j].1]
  {
  }

  /** When every borough's values are numbers, bools or absent, the only
      remaining failure is a bad datetime: the reply is a success holding, for
      each borough, the upstream numbers (0 for an absent key). */
  lemma NumericCurrentSucceeds(datetime: string, isoDate: string -> bool, upstream: string -> Upstream,
                               parseStr: string -> Option<real>)
    requires isoDate(datetime)
    requires forall i :: 0 <= i < |BOROUGHS| ==> NumericBody(upstream(BOROUGHS[i].name))
    ensures var reply := GetWeather(datetime, isoDate, upstream, parseStr);
      reply.Success? &&
      forall i :: 0 <= i < |BOROUGHS| ==>
        BOROUGHS[i].name in reply.body &&
        forall j :: 0 <= j < |FIELDS| ==>
          FIELDS[j].0 in reply.body[BOROUGHS[i].name] &&
          reply.body[BOROUGHS[i].name][FIELDS[j].0] == NumberOf(CurrentBlock(upstream(BOROUGHS[i].name).data), FIELDS[j].1)
  {
    var results := Gathered(upstream);
    forall i | 0 <= i < |BOROUGHS|
      ensures "error" !in results[i].1 && Validates(results[i].1, parseStr)
      ensures forall j :: 0 <= j < |FIELDS| ==>
        FIELDS[j].0 in results[i].1 &&
        Validated(results[i].1, parseStr)[FIELDS[j].0] == NumberOf(CurrentBlock(upstream(BOROUGHS[i].name).data), FIELDS[j].1)
    {
      FetchNumeric(BOROUGHS[i].name, upstream(BOROUGHS[i].name), parseStr);
    }
    assert AllValidate(results, parseStr);
    var reply := GetWeather(datetime, isoDate, upstream, parseStr);
    assert reply.Success?;
    forall i | 0 <= i < |BOROUGHS|
      ensures BOROUGHS[i].name in reply.body && reply.body[BOROUGHS[i].name] == Validated(results[i].1, parseStr)
    {
      assert BOROUGHS[i].name in (set i' | 0 <= i' < |BOROUGHS| :: BOROUGHS[i'].name);
    }
  }
}
