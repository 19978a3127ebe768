/** The accident-probability inference step. `grid_df` is an array of rows
    that the step updates in place: it gains the thirteen feature columns, in
    the classifier's fixed order, and then the `probability` column; the
    result keeps only (lat, lon, borough, probability). */
module Inference {
  import opened Results
  import opened Calendar
  import opened PyJson

  /** A value in one of the added columns. */
  datatype Cell = IntCell(i: int) | BoolCell(b: bool) | RealCell(r: real)

  /** One row of the caller's frame: the three columns it supplies, and every
      column added to it since, by name. */
  datatype Row = Row(lat: real, lon: real, borough: string, added: map<string, Cell>)

  /** One row of the returned frame. */
  datatype Prediction = Prediction(lat: real, lon: real, borough: string, probability: real)

  /** Borough name to weather key to value. */
  type BoroughWeather = map<string, map<string, real>>

  /** The trained classifier's `predict_proba` on one feature row:
      (P(no crash), P(crash)). */
  type Classifier = seq<Cell> -> (real, real)

  const WEATHER_KEYS: seq<string> := ["tavg", "prcp", "snow", "wdir", "wspd", "pres"]

  /** The columns the classifier was trained on, in its order. */
  const FEATURE_COLUMNS: seq<string> := [
    "hour", "day_of_week", "month", "is_weekend",
    "tavg", "prcp", "snow",
    "wdir", "wspd", "pres",
    "nearest_intersection_lat", "nearest_intersection_lon",
    "distance_to_intersection_km"
  ]

  const PROBABILITY := "probability"

  lemma FeatureColumnsDistinct()
    ensures |FEATURE_COLUMNS| == 13
    ensures forall c, d :: 0 <= c < d < 13 ==> FEATURE_COLUMNS[c] != FEATURE_COLUMNS[d]
    ensures PROBABILITY !in FEATURE_COLUMNS
    ensures FEATURE_COLUMNS[4..10] == WEATHER_KEYS
  {
    assert forall j :: 0 <= j < 6 ==> FEATURE_COLUMNS[4..10][j] == WEATHER_KEYS[j];
  }

  /** `borough_weather[b][key]` does not raise. */
  predicate HasWeather(w: BoroughWeather, b: string, key: string)
  {
    b in w && key in w[b]
  }

  /** Every weather column among the first `k` features can be looked up. */
  predicate Computable(row: Row, w: BoroughWeather, k: nat)
  {
    forall j :: 0 <= j < |WEATHER_KEYS| && 4 + j < k ==> HasWeather(w, row.borough, WEATHER_KEYS[j])
  }

  /** Once the weather key of column `k` is known, column `k + 1` is computable too. */
  lemma ComputableNext(row: Row, w: BoroughWeather, k: nat)
    requires 4 <= k < 10 && Computable(row, w, k) && HasWeather(w, row.borough, WEATHER_KEYS[k - 4])
    ensures Computable(row, w, k + 1)
  {
    forall j | 0 <= j < |WEATHER_KEYS| && 4 + j < k + 1
      ensures HasWeather(w, row.borough, WEATHER_KEYS[j])
    {
      if j < k - 4 {
        assert 4 + j < k;
      }
    }
  }

  /** Feature column `c` of a row at time `dt`. */
  function FeatureValue(c: nat, row: Row, dt: DateTime, w: BoroughWeather): Cell
    requires c < 13 && ValidDateTime(dt) && Computable(row, w, c + 1)
  {
    var dow := DayOfWeek(dt.year, dt.month, dt.day);
    if c == 0 then IntCell(dt.hour)
    else if c == 1 then IntCell(dow)
    else if c == 2 then IntCell(dt.month)
    else if c == 3 then BoolCell(dow >= 5)
    else if c < 10 then
      assert HasWeather(w, row.borough, WEATHER_KEYS[c - 4]);
      RealCell(w[row.borough][WEATHER_KEYS[c - 4]])
    else if c == 10 then RealCell(row.lat)
    else if c == 11 then RealCell(row.lon)
    else RealCell(0.0)
  }

  /** The feature row the classifier receives for `row`. */
  function FeatureVector(row: Row, dt: DateTime, w: BoroughWeather): (v: seq<Cell>)
    requires ValidDateTime(dt) && Computable(row, w, 13)
    ensures |v| == |FEATURE_COLUMNS|
    ensures v[0] == IntCell(dt.hour) && v[2] == IntCell(dt.month)
    ensures v[1] == IntCell(DayOfWeek(dt.year, dt.month, dt.day)) && 0 <= v[1].i <= 6
    ensures v[3] == BoolCell(v[1].i >= 5)
    ensures forall j :: 0 <= j < |WEATHER_KEYS| ==>
      HasWeather(w, row.borough, WEATHER_KEYS[j]) && v[4 + j] == RealCell(w[row.borough][WEATHER_KEYS[j]])
    ensures v[10] == RealCell(row.lat) && v[11] == RealCell(row.lon) && v[12] == RealCell(0.0)
    ensures forall c :: 0 <= c < 13 ==> v[c] == FeatureValue(c, row, dt, w)
  {
    FeatureColumnsDistinct();
    seq(13, c requires 0 <= c < 13 => FeatureValue(c, row, dt, w))
  }

  /** A row after the first `k` feature columns have been assigned. Its own
      three columns are unchanged, the new columns hold the feature values,
      and every other column it had is untouched. */
  function Applied(row: Row, dt: DateTime, w: BoroughWeather, k: nat): (r: Row)
    requires k <= 13 && ValidDateTime(dt) && Computable(row, w, k)
    ensures r.lat == row.lat && r.lon == row.lon && r.borough == row.borough
    ensures forall name :: name in r.added <==> name in row.added || name in FEATURE_COLUMNS[..k]
    ensures forall c :: 0 <= c < k ==>
      FEATURE_COLUMNS[c] in r.added && r.added[FEATURE_COLUMNS[c]] == FeatureValue(c, row, dt, w)
    ensures forall name :: name in row.added && name !in FEATURE_COLUMNS[..k] ==> r.added[name] == row.added[name]
  {
    if k == 0 then row
    else
      FeatureColumnsDistinct();
      var prev := Applied(row, dt, w, k - 1);
      assert FEATURE_COLUMNS[..k] == FEATURE_COLUMNS[..k - 1] + [FEATURE_COLUMNS[k - 1]];
      prev.(added := prev.added[FEATURE_COLUMNS[k - 1] := FeatureValue(k - 1, row, dt, w)])
  }

  /** The row as the caller's frame holds it after a successful call. */
  function Scored(row: Row, dt: DateTime, w: BoroughWeather, model: Classifier): Row
    requires ValidDateTime(dt) && Computable(row, w, 13)
  {
    var a := Applied(row, dt, w, 13);
    a.(added := a.added[PROBABILITY := RealCell(model(FeatureVector(row, dt, w)).1)])
  }

  /** Selecting the feature columns, in order, from a fully featured row gives
      exactly its feature vector. */
  lemma {:induction false} SelectedIsFeatureVector(row: Row, dt: DateTime, w: BoroughWeather)
    requires ValidDateTime(dt) && Computable(row, w, 13)
    ensures forall c :: 0 <= c < 13 ==> FEATURE_COLUMNS[c] in Applied(row, dt, w, 13).added
    ensures Select(Applied(row, dt, w, 13), FEATURE_COLUMNS) == FeatureVector(row, dt, w)
  {
    var a := Applied(row, dt, w, 13);
    var v := FeatureVector(row, dt, w);
    var x := Select(a, FEATURE_COLUMNS);
    assert |x| == |v| == 13;
    assert forall c :: 0 <= c < 13 ==> x[c] == v[c];
  }

  /** `frame[names]` for one row. */
  function Select(row: Row, names: seq<string>): (v: seq<Cell>)
    requires forall c :: 0 <= c < |names| ==> names[c] in row.added
    ensures |v| == |names|
    ensures forall c :: 0 <= c < |names| ==> v[c] == row.added[names[c]]
  {
    seq(|names|, c requires 0 <= c < |names| => row.added[names[c]])
  }

  /** `grid_df[col] = values`: one column set on every row, all else unchanged. */
  method AssignColumn(grid: array<Row>, name: string, values: seq<Cell>)
    requires |values| == grid.Length
    modifies grid
    ensures forall i :: 0 <= i < grid.Length ==>
      grid[i] == old(grid[i]).(added := old(grid[i]).added[name := values[i]])
  {
    var i := 0;
    while i < grid.Length
      invariant 0 <= i <= grid.Length
      invariant forall j :: 0 <= j < i ==> grid[j] == old(grid[j]).(added := old(grid[j]).added[name := values[j]])
      invariant forall j :: i <= j < grid.Length ==> grid[j] == old(grid[j])
    {
      grid[i] := grid[i].(added := grid[i].added[name := values[i]]);
      i := i + 1;
    }
  }

  /** `grid_df["borough"].map(lambda b: borough_weather[b][key])`: the whole
      column, or nothing when some row's borough or key is missing. */
  method LookupColumn(grid: array<Row>, w: BoroughWeather, key: string) returns (col: Option<seq<Cell>>)
    ensures col.Some? <==> forall i :: 0 <= i < grid.Length ==> HasWeather(w, grid[i].borough, key)
    ensures col.Some? ==> |col.value| == grid.Length
    ensures col.Some? ==> forall i :: 0 <= i < grid.Length ==> col.value[i] == RealCell(w[grid[i].borough][key])
  {
    var values: seq<Cell> := [];
    var i := 0;
    while i < grid.Length
      invariant 0 <= i <= grid.Length
      invariant |values| == i
      invariant forall j :: 0 <= j < i ==>
        HasWeather(w, grid[j].borough, key) && values[j] == RealCell(w[grid[j].borough][key])
    {
      var b := grid[i].borough;
      if b !in w || key !in w[b] {
        return None;
      }
      values := values + [RealCell(w[b][key])];
      i := i + 1;
    }
    return Some(values);
  }

  /** A column holding `c` on every one of `n` rows (a scalar assignment). */
  function Constant(n: nat, c: Cell): (col: seq<Cell>)
    ensures |col| == n && forall i :: 0 <= i < n ==> col[i] == c
  {
    seq(n, _ => c)
  }

  /** `grid_df["lat"]` as a feature column. */
  function LatColumn(rows: seq<Row>): (col: seq<Cell>)
    ensures |col| == |rows| && forall i :: 0 <= i < |rows| ==> col[i] == RealCell(rows[i].lat)
  {
    seq(|rows|, i requires 0 <= i < |rows| => RealCell(rows[i].lat))
  }

  /** `grid_df["lon"]` as a feature column. */
  function LonColumn(rows: seq<Row>): (col: seq<Cell>)
    ensures |col| == |rows| && forall i :: 0 <= i < |rows| ==> col[i] == RealCell(rows[i].lon)
  {
    seq(|rows|, i requires 0 <= i < |rows| => RealCell(rows[i].lon))
  }

  /** The frame `rows` holds the original rows with their first `k`
      features assigned. */
  predicate AtStage(rows: seq<Row>, orig: seq<Row>, dt: DateTime, w: BoroughWeather, k: nat)
    requires k <= 13 && ValidDateTime(dt)
  {
    |rows| == |orig| &&
    forall i :: 0 <= i < |orig| ==> Computable(orig[i], w, k) && rows[i] == Applied(orig[i], dt, w, k)
  }

  /** Assigns feature column `k`, whose values are already computed, to a
      frame holding the first `k` features; the frame then holds `k + 1`. */
  method AssignFeature(grid: array<Row>, k: nat, values: seq<Cell>, dt: DateTime, w: BoroughWeather, ghost orig: seq<Row>)
    requires k < 13 && ValidDateTime(dt) && |values| == grid.Length
    requires AtStage(grid[..], orig, dt, w, k)
    requires forall i :: 0 <= i < |orig| ==> Computable(orig[i], w, k + 1)
    requires forall i :: 0 <= i < |orig| ==> values[i] == FeatureValue(k, orig[i], dt, w)
    modifies grid
    ensures AtStage(grid[..], orig, dt, w, k + 1)
  {
    AssignColumn(grid, FEATURE_COLUMNS[k], values);
  }

  /** Step 2 of the inference: hour, day of week (0 is Monday), month and the
      weekend flag, the same on every row. */
  method AddTimeFeatures(grid: array<Row>, dt: DateTime, w: BoroughWeather, ghost orig: seq<Row>)
    requires ValidDateTime(dt) && grid[..] == orig
    modifies grid
    ensures AtStage(grid[..], orig, dt, w, 4)
  {
    var dow := DayOfWeek(dt.year, dt.month, dt.day);
    AssignFeature(grid, 0, Constant(grid.Length, IntCell(dt.hour)), dt, w, orig);
    AssignFeature(grid, 1, Constant(grid.Length, IntCell(dow)), dt, w, orig);
    AssignFeature(grid, 2, Constant(grid.Length, IntCell(dt.month)), dt, w, orig);
    AssignFeature(grid, 3, Constant(grid.Length, BoolCell(dow >= 5)), dt, w, orig);
  }

  /** The number of feature columns assigned once the weather lookups, tried
      in order from column `k`, stop: 10 when every row's borough has every
      key, otherwise the column of the first key some row's borough lacks. */
  function WeatherReached(rows: seq<Row>, w: BoroughWeather, k: nat): (n: nat)
    requires 4 <= k <= 10
    decreases 10 - k
    ensures k <= n <= 10
    ensures forall i :: 0 <= i < |rows| && Computable(rows[i], w, k) ==> Computable(rows[i], w, n)
    ensures n < 10 ==> exists i :: 0 <= i < |rows| && !HasWeather(w, rows[i].borough, WEATHER_KEYS[n - 4])
  {
    if k == 10 then 10
    else if forall i :: 0 <= i < |rows| ==> HasWeather(w, rows[i].borough, WEATHER_KEYS[k - 4]) then
      assert forall i :: 0 <= i < |rows| && Computable(rows[i], w, k) ==> Computable(rows[i], w, k + 1) by {
        forall i | 0 <= i < |rows| && Computable(rows[i], w, k) {
          ComputableNext(rows[i], w, k);
        }
      }
      WeatherReached(rows, w, k + 1)
    else k
  }

  /** One line of step 3: looks up weather column `k` for every row and
      assigns it, or raises (and assigns nothing) when some row's borough or
      the key is missing. */
  method AddWeatherColumn(grid: array<Row>, k: nat, dt: DateTime, w: BoroughWeather, ghost orig: seq<Row>, ghost n: nat)
    returns (ok: bool)
    requires 4 <= k < 10 && ValidDateTime(dt)
    requires AtStage(grid[..], orig, dt, w, k) && n == WeatherReached(orig, w, k)
    modifies grid
    ensures ok <==> forall i :: 0 <= i < |orig| ==> HasWeather(w, orig[i].borough, WEATHER_KEYS[k - 4])
    ensures ok ==> n == WeatherReached(orig, w, k + 1) && AtStage(grid[..], orig, dt, w, k + 1)
    ensures !ok ==> n == k && AtStage(grid[..], orig, dt, w, k) && grid[..] == old(grid[..])
  {
    var col := LookupColumn(grid, w, WEATHER_KEYS[k - 4]);
    if col.None? {
      return false;
    }
    forall i | 0 <= i < |orig|
      ensures Computable(orig[i], w, k + 1)
    {
      ComputableNext(orig[i], w, k);
    }
    AssignFeature(grid, k, col.value, dt, w, orig);
    return true;
  }

  /** Step 3: the six borough weather columns, in order. Stops at the first
      lookup that raises, with the earlier columns already assigned. */
  method AddWeatherFeatures(grid: array<Row>, dt: DateTime, w: BoroughWeather, ghost orig: seq<Row>) returns (ok: bool)
    requires ValidDateTime(dt)
    requires AtStage(grid[..], orig, dt, w, 4)
    modifies grid
    ensures ok <==> WeatherReached(orig, w, 4) == 10
    ensures AtStage(grid[..], orig, dt, w, WeatherReached(orig, w, 4))
  {
    ghost var n := WeatherReached(orig, w, 4);
    ok := AddWeatherColumn(grid, 4, dt, w, orig, n);
    if !ok { return; }
    ok := AddWeatherColumn(grid, 5, dt, w, orig, n);
    if !ok { return; }
    ok := AddWeatherColumn(grid, 6, dt, w, orig, n);
    if !ok { return; }
    ok := AddWeatherColumn(grid, 7, dt, w, orig, n);
    if !ok { return; }
    ok := AddWeatherColumn(grid, 8, dt, w, orig, n);
    if !ok { return; }
    ok := AddWeatherColumn(grid, 9, dt, w, orig, n);
    assert ok ==> n == WeatherReached(orig, w, 10);
  }

  /** Step 4: the grid point stands in for its nearest intersection, at
      distance zero. */
  method AddSpatialFeatures(grid: array<Row>, dt: DateTime, w: BoroughWeather, ghost orig: seq<Row>)
    requires ValidDateTime(dt)
    requires AtStage(grid[..], orig, dt, w, 10)
    modifies grid
    ensures AtStage(grid[..], orig, dt, w, 13)
  {
    AssignFeature(grid, 10, LatColumn(grid[..]), dt, w, orig);
    AssignFeature(grid, 11, LonColumn(grid[..]), dt, w, orig);
    AssignFeature(grid, 12, Constant(grid.Length, RealCell(0.0)), dt, w, orig);
  }

  /** `frame[names]`: the named columns of every row, in order. */
  function Frame(rows: seq<Row>, names: seq<string>): (x: seq<seq<Cell>>)
    requires forall i, c :: 0 <= i < |rows| && 0 <= c < |names| ==> names[c] in rows[i].added
    ensures |x| == |rows|
    ensures forall i :: 0 <= i < |rows| ==> x[i] == Select(rows[i], names)
  {
    seq(|rows|, i requires 0 <= i < |rows| => Select(rows[i], names))
  }

  /** `frame[["lat", "lon", "borough", "probability"]]`. */
  function Projection(rows: seq<Row>): (out: seq<Prediction>)
    requires forall i :: 0 <= i < |rows| ==> PROBABILITY in rows[i].added && rows[i].added[PROBABILITY].RealCell?
    ensures |out| == |rows|
    ensures forall i :: 0 <= i < |rows| ==>
      out[i] == Prediction(rows[i].lat, rows[i].lon, rows[i].borough, rows[i].added[PROBABILITY].r)
  {
    seq(|rows|, i requires 0 <= i < |rows| =>
      Prediction(rows[i].lat, rows[i].lon, rows[i].borough, rows[i].added[PROBABILITY].r))
  }

  /** `pd.to_datetime(date)` succeeds, with a real calendar date and an hour
      of the day, which the time features then read. */
  predicate Parses(date: string, parseDate: string -> Option<DateTime>)
    ensures Parses(date, parseDate) ==>
      parseDate(date).Some? && 1 <= parseDate(date).value.month <= 12 &&
      1 <= parseDate(date).value.day <= 31 && 0 <= parseDate(date).value.hour < 24
  {
    parseDate(date).Some? && ValidDateTime(parseDate(date).value)
  }

  /** The prediction the step returns for `row`: its own position and
      borough, and the classifier's crash probability for its feature row. */
  function Predicted(row: Row, dt: DateTime, w: BoroughWeather, model: Classifier): (p: Prediction)
    requires ValidDateTime(dt) && Computable(row, w, 13)
    ensures [p] == Projection([Scored(row, dt, w, model)])
  {
    Prediction(row.lat, row.lon, row.borough, model(FeatureVector(row, dt, w)).1)
  }

  /** `predict_accident_probabilities(grid_df, date, borough_weather)`.
      An unparsable date raises before the frame is touched. A weather lookup
      that raises leaves the frame with the columns assigned before it. On
      success every row holds its thirteen features and its probability, and
      the result has one prediction per row, in row order. */
  method PredictAccidentProbabilities(grid: array<Row>, date: string, parseDate: string -> Option<DateTime>,
                                      w: BoroughWeather, model: Classifier)
    returns (r: Result<seq<Prediction>>)
    modifies grid
    ensures !Parses(date, parseDate) ==> r == Err(VALUE_ERROR) && grid[..] == old(grid[..])
    ensures Parses(date, parseDate) ==>
      var dt := parseDate(date).value;
      var n := WeatherReached(old(grid[..]), w, 4);
      (n < 10 ==>
        r == Err(KEY_ERROR) &&
        forall i :: 0 <= i < grid.Length ==> grid[i] == Applied(old(grid[i]), dt, w, n))
    ensures Parses(date, parseDate) ==>
      var dt := parseDate(date).value;
      var n := WeatherReached(old(grid[..]), w, 4);
      (n == 10 ==>
        r.Ok? && |r.value| == grid.Length &&
        forall i :: 0 <= i < grid.Length ==>
          grid[i] == Scored(old(grid[i]), dt, w, model) && r.value[i] == Predicted(old(grid[i]), dt, w, model))
  {
    if !Parses(date, parseDate) {
      return Err(VALUE_ERROR);
    }
    var dt := parseDate(date).value;
    ghost var orig := grid[..];
    AddTimeFeatures(grid, dt, w, orig);
    var ok := AddWeatherFeatures(grid, dt, w, orig);
    if !ok {
      return Err(KEY_ERROR);
    }
    AddSpatialFeatures(grid, dt, w, orig);
    forall i | 0 <= i < grid.Length
      ensures forall c :: 0 <= c < 13 ==> FEATURE_COLUMNS[c] in grid[i].added
      ensures Select(grid[i], FEATURE_COLUMNS) == FeatureVector(orig[i], dt, w)
    {
      SelectedIsFeatureVector(orig[i], dt, w);
    }
    var x := Frame(grid[..], FEATURE_COLUMNS);
    var proba := seq(|x|, i requires 0 <= i < |x| => RealCell(model(x[i]).1));
    AssignColumn(grid, PROBABILITY, proba);
    return Ok(Projection(grid[..]));
  }

  /** The weather lookups run to the end exactly when every row's borough
      has every key still to be looked up. */
  lemma {:induction false} WeatherReachedComplete(rows: seq<Row>, w: BoroughWeather, k: nat)
    requires 4 <= k <= 10
    requires forall i :: 0 <= i < |rows| ==> Computable(rows[i], w, k)
    ensures WeatherReached(rows, w, k) == 10 <==>
      forall i, j :: 0 <= i < |rows| && k - 4 <= j < |WEATHER_KEYS| ==> HasWeather(w, rows[i].borough, WEATHER_KEYS[j])
    decreases 10 - k
  {
    if k < 10 && forall i :: 0 <= i < |rows| ==> HasWeather(w, rows[i].borough, WEATHER_KEYS[k - 4]) {
      forall i | 0 <= i < |rows| {
        ComputableNext(rows[i], w, k);
      }
      WeatherReachedComplete(rows, w, k + 1);
    }
  }

  /** So the whole step succeeds (for a parsable date) exactly when every
      row's borough has all six weather keys. */
  lemma SucceedsIffWeatherComplete(rows: seq<Row>, w: BoroughWeather)
    ensures WeatherReached(rows, w, 4) == 10 <==>
      forall i :: 0 <= i < |rows| ==> Computable(rows[i], w, 13)
  {
    WeatherReachedComplete(rows, w, 4);
  }

  /** The time features do not depend on the row. */
  lemma TimeFeaturesShared(a: Row, b: Row, dt: DateTime, w: BoroughWeather)
    requires ValidDateTime(dt) && Computable(a, w, 13) && Computable(b, w, 13)
    ensures FeatureVector(a, dt, w)[..4] == FeatureVector(b, dt, w)[..4]
  {
  }

  /** Rows in the same borough get the same weather features. */
  lemma WeatherFeaturesByBorough(a: Row, b: Row, dt: DateTime, w: BoroughWeather)
    requires ValidDateTime(dt) && Computable(a, w, 13) && Computable(b, w, 13)
    requires a.borough == b.borough
    ensures FeatureVector(a, dt, w)[4..10] == FeatureVector(b, dt, w)[4..10]
  {
  }

  /** 16 March 2024 was a Saturday: day_of_week 5, and is_weekend is set;
      the Thursday two days before is not a weekend day. */
  lemma WeekendExample(row: Row, w: BoroughWeather)
    requires Computable(row, w, 13)
    ensures FeatureVector(row, DateTime(2024, 3, 16, 8), w)[1..4] == [IntCell(5), IntCell(3), BoolCell(true)]
    ensures FeatureVector(row, DateTime(2024, 3, 14, 8), w)[3] == BoolCell(false)
  {
    KnownDays();
  }
}
