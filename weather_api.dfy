/** The serverless weather and prediction endpoints: per-borough normalisation
    of an Open-Meteo response in historical (daily) or current mode, the
    five-borough aggregation with its all-or-nothing failure, the coercion of
    record values to numbers, and the fixed accident-prediction reply. */
module WeatherApi {
  import opened Results
  import opened PyJson
  import opened Boroughs
  import opened WeatherGather

  /** A value of a normalised record: a number, or the borough's name. */
  datatype Value = Num(x: real) | Text(s: string)

  /** A normalised per-borough record (a Python dict). */
  type Record = map<string, Value>

  /** What `fetch_borough_weather` does: return a (borough, record) pair, or
      raise before its `try` block is entered. */
  datatype Fetch = Fetched(borough: string, record: Record) | Raised(reason: string)

  const NO_HISTORICAL_DATA := "No historical data available for this date"

  /** Output key and upstream daily key, in the order the record lists them. */
  const DAILY_FIELDS: seq<(string, string)> := [
    ("tavg", "temperature_2m_mean"),
    ("tmin", "temperature_2m_min"),
    ("tmax", "temperature_2m_max"),
    ("prcp", "precipitation_sum"),
    ("snow", "snowfall_sum"),
    ("wdir", "wind_direction_10m_dominant"),
    ("wspd", "wind_speed_10m_max"),
    ("pres", "pressure_msl_mean")
  ]

  /** Output key and upstream key of the current-mode record. */
  const CURRENT_FIELDS: seq<(string, string)> := [
    ("temperature", "temperature_2m"),
    ("precipitation", "precipitation"),
    ("wind_speed", "wind_speed_10m")
  ]

  const HISTORICAL_KEYS: set<string> :=
    {"tavg", "tmin", "tmax", "prcp", "snow", "wdir", "wspd", "pres", "weather_borough"}

  const CURRENT_KEYS: set<string> := {"temperature", "precipitation", "wind_speed"}

  function OutKeys(fields: seq<(string, string)>): set<string>
  {
    set k | k in Keys(fields)
  }

  /** The output keys of the two field tables, spelled out. */
  lemma FieldTables()
    ensures OutKeys(DAILY_FIELDS) == HISTORICAL_KEYS - {"weather_borough"}
    ensures OutKeys(CURRENT_FIELDS) == CURRENT_KEYS
    ensures DistinctOut(DAILY_FIELDS) && DistinctOut(CURRENT_FIELDS)
  {
    assert Keys(DAILY_FIELDS) == ["tavg", "tmin", "tmax", "prcp", "snow", "wdir", "wspd", "pres"];
    assert Keys(CURRENT_FIELDS) == ["temperature", "precipitation", "wind_speed"];
  }

  predicate DistinctOut(fields: seq<(string, string)>)
  {
    forall i, j :: 0 <= i < j < |fields| ==> fields[i].0 != fields[j].0
  }

  function ErrorRecord(msg: string): (r: Record)
    ensures r.Keys == {"error"}
  {
    map["error" := Text(msg)]
  }

  /** The "normal day" record used when the daily mean temperature is missing. */
  function FallbackRecord(borough: string): (r: Record)
    ensures r.Keys == HISTORICAL_KEYS && "error" !in r
    ensures r["weather_borough"] == Text(borough)
    ensures forall k :: k in r && k != "weather_borough" ==> r[k].Num?
  {
    map["tavg" := Num(60.0), "tmin" := Num(50.0), "tmax" := Num(70.0), "prcp" := Num(0.0),
        "snow" := Num(0.0), "wdir" := Num(180.0), "wspd" := Num(10.0), "pres" := Num(1010.0),
        "weather_borough" := Text(borough)]
  }

  /** Builds one record from a field table, reading each upstream key with
      `read`; the first read that raises makes the whole record raise. */
  function ReadFields(fields: seq<(string, string)>, read: string -> Result<real>): (r: Result<Record>)
    requires DistinctOut(fields)
    ensures r.Ok? <==> forall i :: 0 <= i < |fields| ==> read(fields[i].1).Ok?
    ensures r.Ok? ==> r.value.Keys == OutKeys(fields)
    ensures r.Ok? ==> forall i :: 0 <= i < |fields| ==> r.value[fields[i].0] == Num(read(fields[i].1).value)
  {
    if fields == [] then Ok(map[])
    else
      match read(fields[0].1)
      case Err(e) => Err(e)
      case Ok(x) =>
        assert forall i :: 1 <= i < |fields| ==> fields[1..][i - 1] == fields[i];
        assert Keys(fields) == [fields[0].0] + Keys(fields[1..]);
        match ReadFields(fields[1..], read)
        case Err(e) => Err(e)
        case Ok(rest) =>
          Ok(rest[fields[0].0 := Num(x)])
  }

  /** `float(daily.get(key, [0])[0])`. */
  function DailyValue(daily: map<string, Json>, key: string, parse: string -> Option<real>): (r: Result<real>)
    ensures key !in daily ==> r == Ok(0.0)
    ensures key in daily && daily[key] == JList([]) ==> r.Err?
    ensures key in daily && daily[key].JList? && daily[key].items != [] && daily[key].items[0].JNum? ==>
      r == Ok(daily[key].items[0].n)
  {
    match First(Get(daily, key, JList([JNum(0.0)])))
    case Err(e) => Err(e)
    case Ok(x) => ToFloat(x, parse)
  }

  /** `float(current.get(key, 0))`. */
  function CurrentValue(current: map<string, Json>, key: string, parse: string -> Option<real>): (r: Result<real>)
    ensures key !in current ==> r == Ok(0.0)
    ensures key in current && current[key].JNum? ==> r == Ok(current[key].n)
  {
    ToFloat(Get(current, key, JNum(0.0)), parse)
  }

  /** `data.get("daily", {})`. */
  function Daily(data: Json): (r: Result<Json>)
    ensures r.Ok? <==> data.JObj?
    ensures data.JObj? && "daily" !in data.fields ==> r == Ok(JObj(map[]))
    ensures data.JObj? && "daily" in data.fields ==> r == Ok(data.fields["daily"])
  {
    GetAttr(data, "daily", JObj(map[]))
  }

  /** `len(daily.get("time", []))`. */
  function DayCount(daily: Json): (r: Result<nat>)
    ensures !daily.JObj? ==> r.Err?
    ensures daily.JObj? && "time" !in daily.fields ==> r == Ok(0)
    ensures daily.JObj? && "time" in daily.fields && daily.fields["time"].JList? ==>
      r == Ok(|daily.fields["time"].items|)
  {
    match GetAttr(daily, "time", JList([]))
    case Err(e) => Err(e)
    case Ok(time) => Len(time)
  }

  /** The daily mean temperature is missing or falsy. */
  predicate NoMean(daily: map<string, Json>)
  {
    "temperature_2m_mean" !in daily || !Truthy(daily["temperature_2m_mean"])
  }

  /** A record read from the daily table, with its borough added, has the
      historical keys and no "error" key. */
  lemma DailyRecordKeys(rec: Record, borough: string)
    requires rec.Keys == OutKeys(DAILY_FIELDS)
    ensures rec["weather_borough" := Text(borough)].Keys == HISTORICAL_KEYS
    ensures "error" !in rec["weather_borough" := Text(borough)]
  {
    FieldTables();
    var out := rec["weather_borough" := Text(borough)];
    assert rec.Keys == HISTORICAL_KEYS - {"weather_borough"};
    assert "weather_borough" in HISTORICAL_KEYS && "error" !in HISTORICAL_KEYS;
    assert out.Keys == (HISTORICAL_KEYS - {"weather_borough"}) + {"weather_borough"};
  }

  /** The normalisation of a historical (daily) response. `Err` is an
      exception; a returned `{"error": ...}` record is `Ok`. */
  function NormaliseHistorical(borough: string, data: Json, parse: string -> Option<real>): (r: Result<Record>)
    ensures !data.JObj? ==> r.Err?
    ensures r.Ok? && "error" in r.value ==> r.value == ErrorRecord(NO_HISTORICAL_DATA)
    ensures r.Ok? && "error" !in r.value ==>
      r.value.Keys == HISTORICAL_KEYS && r.value["weather_borough"] == Text(borough)
  {
    match Daily(data)
    case Err(e) => Err(e)
    case Ok(daily) =>
      if !Truthy(daily) then Ok(ErrorRecord(NO_HISTORICAL_DATA))
      else
        match DayCount(daily)
        case Err(e) => Err(e)
        case Ok(n) =>
          if n == 0 then Ok(ErrorRecord(NO_HISTORICAL_DATA))
          else if NoMean(daily.fields) then Ok(FallbackRecord(borough))
          else
            match ReadFields(DAILY_FIELDS, (key: string) => DailyValue(daily.fields, key, parse))
            case Err(e) => Err(e)
            case Ok(rec) =>
              DailyRecordKeys(rec, borough);
              Ok(rec["weather_borough" := Text(borough)])
  }

  /** `data.get("current", {})`, which must itself be a dictionary. */
  function Current(data: Json): (r: Result<map<string, Json>>)
    ensures r.Ok? <==> data.JObj? && Get(data.fields, "current", JObj(map[])).JObj?
  {
    match GetAttr(data, "current", JObj(map[]))
    case Err(e) => Err(e)
    case Ok(current) => if current.JObj? then Ok(current.fields) else Err(ATTRIBUTE_ERROR)
  }

  /** The normalisation of a current (instantaneous) response: exactly the
      three renamed fields, each converted with `float` and no unit change. */
  function NormaliseCurrent(data: Json, parse: string -> Option<real>): (r: Result<Record>)
    ensures r.Ok? ==> r.value.Keys == CURRENT_KEYS
    ensures r.Ok? <==>
      (Current(data).Ok? && forall i :: 0 <= i < |CURRENT_FIELDS| ==> CurrentValue(Current(data).value, CURRENT_FIELDS[i].1, parse).Ok?)
    ensures r.Ok? ==> forall i :: 0 <= i < |CURRENT_FIELDS| ==>
      r.value[CURRENT_FIELDS[i].0] == Num(CurrentValue(Current(data).value, CURRENT_FIELDS[i].1, parse).value)
  {
    match Current(data)
    case Err(e) => Err(e)
    case Ok(current) =>
      FieldTables();
      ReadFields(CURRENT_FIELDS, (key: string) => CurrentValue(current, key, parse))
  }

  /** The upstream reported no day: the `daily` object is missing or empty,
      or its `time` list is missing or empty. */
  predicate NoDays(daily: Json)
    ensures daily.JObj? && "time" !in daily.fields ==> NoDays(daily)
    ensures daily.JObj? && "time" in daily.fields && daily.fields["time"].JList? ==>
      (NoDays(daily) <==> daily.fields["time"].items == [])
    ensures daily.JObj? && "time" in daily.fields && (daily.fields["time"].JNum? || daily.fields["time"].JBool?) ==>
      !NoDays(daily)
  {
    !Truthy(daily) || DayCount(daily) == Ok(0)
  }

  /** A historical response without days yields the "no data" error record,
      never weather values, and that record arises in no other way. */
  lemma HistoricalNoData(borough: string, data: Json, parse: string -> Option<real>)
    ensures NormaliseHistorical(borough, data, parse) == Ok(ErrorRecord(NO_HISTORICAL_DATA)) <==>
      Daily(data).Ok? && NoDays(Daily(data).value)
  {
    if Daily(data).Ok? && !NoDays(Daily(data).value) {
      var daily := Daily(data).value;
      if DayCount(daily).Ok? && !NoMean(daily.fields) {
        FieldTables();
        var rf := ReadFields(DAILY_FIELDS, (key: string) => DailyValue(daily.fields, key, parse));
        if rf.Ok? {
          DailyRecordKeys(rf.value, borough);
        }
      }
    }
  }

  /** With at least one day but no usable mean temperature, the record is
      exactly the fallback record for this borough. */
  lemma HistoricalFallback(borough: string, data: Json, parse: string -> Option<real>)
    requires Daily(data).Ok? && Truthy(Daily(data).value)
    requires DayCount(Daily(data).value).Ok? && DayCount(Daily(data).value).value > 0
    requires NoMean(Daily(data).value.fields)
    ensures NormaliseHistorical(borough, data, parse) == Ok(FallbackRecord(borough))
    ensures FallbackRecord(borough) == map[
      "tavg" := Num(60.0), "tmin" := Num(50.0), "tmax" := Num(70.0), "prcp" := Num(0.0),
      "snow" := Num(0.0), "wdir" := Num(180.0), "wspd" := Num(10.0), "pres" := Num(1010.0),
      "weather_borough" := Text(borough)]
  {
  }

  /** With days and a usable mean, every field is the first element of its
      daily list (0 for an absent key), and any field that cannot be read
      (an empty list, a non-number) makes the whole normalisation raise. */
  lemma HistoricalFields(borough: string, data: Json, parse: string -> Option<real>)
    requires Daily(data).Ok? && Truthy(Daily(data).value)
    requires DayCount(Daily(data).value).Ok? && DayCount(Daily(data).value).value > 0
    requires !NoMean(Daily(data).value.fields)
    ensures var r := NormaliseHistorical(borough, data, parse);
      var daily := Daily(data).value.fields;
      && (r.Ok? <==> forall i :: 0 <= i < |DAILY_FIELDS| ==> DailyValue(daily, DAILY_FIELDS[i].1, parse).Ok?)
      && (r.Ok? ==> r.value["weather_borough"] == Text(borough))
      && (r.Ok? ==> forall i :: 0 <= i < |DAILY_FIELDS| ==>
            r.value[DAILY_FIELDS[i].0] == Num(DailyValue(daily, DAILY_FIELDS[i].1, parse).value))
  {
    FieldTables();
  }

  /** `if date_str:` — a missing or empty date selects current mode. */
  predicate Historical(date: Option<string>)
  {
    date.Some? && date.value != ""
  }

  /** `fetch_borough_weather`. The ISO date check (`isoDate`) happens before
      the `try` block, so a bad date raises; every later failure becomes an
      error record for this borough. */
  function FetchBoroughWeather(borough: string, date: Option<string>, isoDate: string -> bool,
                               parse: string -> Option<real>, upstream: Upstream): (r: Fetch)
    ensures r.Raised? <==> Historical(date) && !isoDate(date.value)
    ensures r.Fetched? ==> r.borough == borough
    ensures r.Fetched? && upstream.Failed? ==> r.record == ErrorRecord(upstream.reason)
    ensures r.Fetched? && "error" in r.record ==> r.record.Keys == {"error"}
    ensures r.Fetched? && "error" !in r.record ==>
      upstream.Body? && r.record.Keys == (if Historical(date) then HISTORICAL_KEYS else CURRENT_KEYS)
    ensures r.Fetched? && upstream.Body? ==>
      var n := if Historical(date) then NormaliseHistorical(borough, upstream.data, parse)
               else NormaliseCurrent(upstream.data, parse);
      r.record == if n.Ok? then n.value else ErrorRecord(n.error)
  {
    if Historical(date) && !isoDate(date.value) then Raised(VALUE_ERROR)
    else
      match upstream
      case Failed(reason) => Fetched(borough, ErrorRecord(reason))
      case Body(data) =>
        var n := if Historical(date) then NormaliseHistorical(borough, data, parse)
                 else NormaliseCurrent(data, parse);
        Fetched(borough, if n.Ok? then n.value else ErrorRecord(n.error))
  }

  /** The five fetches of `get_weather`, in BOROUGHS order and in current
      mode (no date is passed). `upstream` gives each borough's response. */
  function Gathered(isoDate: string -> bool, parse: string -> Option<real>,
                    upstream: string -> Upstream): (results: seq<(string, Record)>)
    ensures Keys(results) == Names()
    ensures forall i :: 0 <= i < |results| ==>
      results[i].1 == FetchBoroughWeather(BOROUGHS[i].name, None, isoDate, parse, upstream(BOROUGHS[i].name)).record
  {
    seq(|BOROUGHS|, i requires 0 <= i < |BOROUGHS| =>
      var f := FetchBoroughWeather(BOROUGHS[i].name, None, isoDate, parse, upstream(BOROUGHS[i].name));
      (f.borough, f.record))
  }

  /** `float(v) if isinstance(v, (int, float)) else 0.0` */
  function CoerceValue(v: Value): real
  {
    if v.Num? then v.x else 0.0
  }

  /** One borough's record with every value made a number: same keys,
      numbers kept, anything else 0.0. */
  function CoerceRecord(rec: Record): (r: map<string, real>)
    ensures r.Keys == rec.Keys
    ensures forall k :: k in rec ==> r[k] == CoerceValue(rec[k])
  {
    map k | k in rec :: CoerceValue(rec[k])
  }

  /** Every record a current-mode fetch can produce without error holds only
      numbers, so the coercion of `get_weather` changes none of its values. */
  lemma CoercionKeepsCurrentRecords(borough: string, isoDate: string -> bool,
                                    parse: string -> Option<real>, upstream: Upstream)
    ensures var f := FetchBoroughWeather(borough, None, isoDate, parse, upstream);
      f.Fetched? && ("error" !in f.record ==>
        forall k :: k in f.record ==> f.record[k] == Num(CoerceRecord(f.record)[k]))
  {
    var f := FetchBoroughWeather(borough, None, isoDate, parse, upstream);
    if "error" !in f.record {
      var n := NormaliseCurrent(upstream.data, parse);
      FieldTables();
      forall k | k in f.record
        ensures f.record[k] == Num(CoerceRecord(f.record)[k])
      {
        var i :| 0 <= i < |CURRENT_FIELDS| && CURRENT_FIELDS[i].0 == k;
        assert Keys(CURRENT_FIELDS)[i] == k;
      }
    }
  }

  /** The loop of `get_weather` that builds `weather_data` borough by borough. */
  method CoerceAll(results: seq<(string, Record)>) returns (data: map<string, map<string, real>>)
    requires Distinct(Keys(results))
    ensures data.Keys == set i | 0 <= i < |results| :: results[i].0
    ensures forall i :: 0 <= i < |results| ==> data[results[i].0] == CoerceRecord(results[i].1)
  {
    data := map[];
    var i := 0;
    while i < |results|
      invariant 0 <= i <= |results|
      invariant data.Keys == set j | 0 <= j < i :: results[j].0
      invariant forall j :: 0 <= j < i ==> data[results[j].0] == CoerceRecord(results[j].1)
    {
      assert Keys(results)[i] == results[i].0;
      assert forall j :: 0 <= j < i ==> Keys(results)[j] == results[j].0;
      data := data[results[i].0 := CoerceRecord(results[i].1)];
      i := i + 1;
    }
  }

  /** `get_weather`: parse the request's datetime (400 if it is not ISO 8601),
      fetch all five boroughs, fail with 500 naming, in BOROUGHS order, every
      borough whose record has an "error" key, and otherwise answer with every
      borough's record made numeric. */
  method GetWeather(datetime: string, isoDate: string -> bool, parse: string -> Option<real>,
                    upstream: string -> Upstream)
    returns (reply: Reply<map<string, map<string, real>>>)
    ensures !isoDate(datetime) ==> reply == HttpError(400, INVALID_DATETIME)
    ensures isoDate(datetime) ==>
      var results := Gathered(isoDate, parse, upstream);
      (ErrorBoroughs(results) != [] ==> reply == HttpError(500, FailureDetail(ErrorBoroughs(results))))
    ensures reply.Success? <==>
      isoDate(datetime) && forall i :: 0 <= i < |BOROUGHS| ==> "error" !in Gathered(isoDate, parse, upstream)[i].1
    ensures reply.Success? ==>
      reply.body.Keys == (set i | 0 <= i < |BOROUGHS| :: BOROUGHS[i].name) &&
      forall i :: 0 <= i < |BOROUGHS| ==>
        reply.body[BOROUGHS[i].name] == CoerceRecord(Gathered(isoDate, parse, upstream)[i].1)
  {
    if !isoDate(datetime) {
      return HttpError(400, INVALID_DATETIME);
    }
    var results := Gathered(isoDate, parse, upstream);
    var errors := ErrorBoroughs(results);
    if errors != [] {
      return HttpError(500, FailureDetail(errors));
    }
    NamesDistinct();
    var data := CoerceAll(results);
    return Success(data);
  }

  /** A reply item of `predict_accidents`. */
  datatype CoordinatePrediction = CoordinatePrediction(lat: real, lon: real, borough: string, probability: real)

  datatype AccidentPredictionResponse = AccidentPredictionResponse(predictions: seq<CoordinatePrediction>, date: string)

  /** The two predictions `predict_accidents` always answers with. */
  const FIXED_PREDICTIONS: seq<CoordinatePrediction> := [
    CoordinatePrediction(40.7128, -74.0060, "Manhattan", 0.75),
    CoordinatePrediction(40.6782, -73.9442, "Brooklyn", 0.60)
  ]

  /** `predict_accidents`: two fixed predictions, whatever the date, and the
      request's date echoed verbatim. */
  function PredictAccidents(date: string): (r: AccidentPredictionResponse)
    ensures r.date == date
    ensures r.predictions == FIXED_PREDICTIONS
    ensures |r.predictions| == 2
    ensures forall i :: 0 <= i < 2 ==>
      r.predictions[i].borough in Names() && 0.0 <= r.predictions[i].probability <= 1.0
  {
    NamesDistinct();
    AccidentPredictionResponse(FIXED_PREDICTIONS, date)
  }

  /** The predictions do not depend on the requested date. */
  lemma PredictionsIgnoreDate(d1: string, d2: string)
    ensures PredictAccidents(d1).predictions == PredictAccidents(d2).predictions
    ensures PredictAccidents(d1).date != PredictAccidents(d2).date <==> d1 != d2
  {
  }
}
