# NYC road-safety live prediction: a Dafny model of the core

This project models the parts of the NYC road-safety prediction service that make decisions. It covers five areas.

- **Serverless weather endpoints** (`api/endpoints.py`). For each of the five boroughs, an Open-Meteo response is normalised.
  - Historical mode covers the "no data" error record, a fixed fallback "normal day" record and the eight daily fields. Current mode has three fields.
  - A failure inside the fetch becomes an `{"error": ...}` record.
  - The five-borough `get_weather` parses the datetime, fetches in BOROUGHS order, and fails with 500 when any record holds an error, naming the failed boroughs in order. Otherwise it coerces every value to a number.
  - `predict_accidents` returns its two fixed predictions and echoes the date.
- **Service weather endpoint** (`src/api/endpoints.py`). This is the current-only variant. Its records keep the upstream JSON values, and the response model validates them.
- **Inference** (`src/modeling/inference.py`). `predict_accident_probabilities` updates an array of grid rows in place.
  - It assigns four time features, then six per-borough weather features (any lookup may raise), then three spatial features.
  - It then selects the thirteen columns in the classifier's order, attaches the crash probability and projects four columns.
  - The model states the frame's contents after a successful call and after a failure part-way.
- **Prediction grid** (`src/preprocessing/nyc_grid.py`). This covers `np.arange` over the bounding box, `meshgrid` and row-major `flatten`, and the nearest-centroid borough label under the planar squared-degree key.
- **Intersection enrichment** (`scripts/enrich_intersections.py`, lines 27-41). This is the loop that copies each raw point and adds its nearest borough under an abstract great-circle distance.

Each module has its own file:
- `results.dfy`: `Option` and `Result`.
- `pyjson.dfy`: decoded JSON values and the Python operations the code applies to them (`dict.get`, `x[k]`, `len`, `x[0]`, `float`, truthiness).
- `boroughs.dfy`: the centroid table that the four core files declaring it share, and Python `min` with a key.
- `calendar.dfy`: proleptic Gregorian day numbers and pandas' `dayofweek`, where Monday is 0.
- `weather_gather.dfy`: the aggregation the two endpoints share.
- One file for each core source file: `weather_api.dfy`, `current_weather_api.dfy`, `inference.dfy`, `nyc_grid.dfy`, `enrich_intersections.dfy`.

A Python exception is represented by the name of its class (`"KeyError"`, `"ValueError"`, ...), standing in for the `str(e)` text the code stores.

Everything outside the code is an input of the model:
- the HTTP responses (`upstream`);
- `datetime.fromisoformat` and `pd.to_datetime` (`isoDate`, `parseDate`);
- Python's string-to-float parser (`parse`);
- pydantic's parsing of a number written as a string (`parseStr`). Its float validation of numbers, bools and every other JSON kind is written out (CurrentWeatherApi.AsFloat);
- the trained classifier (`model`);
- geopy's distance (`dist`) and geopy's parsing of a lone latitude given with a null longitude (`single`). The two-coordinate normalisation and the rejection of a lone number are written out (EnrichIntersections.GeoFloat, EnrichIntersections.PointCoord).

## Model

| member | source | states |
|---|---|---|
| PyJson.Truthy | api/endpoints.py:101-107 | `not x` holds exactly of null, false, zero and the empty string, list and dictionary |
| PyJson.Get | api/endpoints.py:100 | `d.get(key, default)` is the stored value when the key is present and the default otherwise |
| PyJson.GetAttr | api/endpoints.py:100-101 | `.get` succeeds exactly on dictionaries; on any other value it raises AttributeError |
| PyJson.Subscript | scripts/enrich_intersections.py:30 | `pt[key]` succeeds exactly on a dictionary holding the key; a missing key raises KeyError and a non-dictionary raises TypeError |
| PyJson.Len | api/endpoints.py:101 | `len` is defined exactly on strings, lists and dictionaries, and a list's length is its item count |
| PyJson.First | api/endpoints.py:122-129 | `x[0]` is a non-empty list's head; an empty list raises; only lists and strings succeed |
| PyJson.ToFloat | api/endpoints.py:122-139 | `float` keeps a number; null, lists and dictionaries raise |
| Boroughs.Names | api/endpoints.py:49-55 | the borough names in declaration order, one per centroid |
| Boroughs.NamesDistinct | api/endpoints.py:49-55 | the five names are Manhattan, Brooklyn, Queens, Staten Island and Bronx, pairwise distinct |
| Boroughs.ArgMin | src/preprocessing/nyc_grid.py:50-53 | Python `min` with a key returns a candidate whose key is minimal, and no earlier candidate has that key (the first minimum wins ties) |
| Boroughs.ArgMinUnique | scripts/enrich_intersections.py:32-35 | any index meeting ArgMin's contract is ArgMin's result: minimal and first on ties determine the choice |
| Boroughs.NearestBorough | scripts/enrich_intersections.py:32-35 | the chosen name is a borough whose centroid minimises the distance, and every earlier borough is strictly farther |
| Calendar.DaysInMonth | src/modeling/inference.py:34 | months have 28 to 31 days; February has 29 exactly in leap years |
| Calendar.DayOfWeek | src/modeling/inference.py:36 | the day of the week lies in 0..6 |
| Calendar.NextDay | src/modeling/inference.py:34-36 | the day after a valid date is a valid date |
| Calendar.MonthTotals | src/modeling/inference.py:34-36 | the twelve months of a year add up to 337 days plus the length of February |
| Calendar.DaysBeforeNextYear | src/modeling/inference.py:34-36 | the day count before year y + 1 is that before y plus 366 in a leap year and 365 otherwise |
| Calendar.YearLength | src/modeling/inference.py:36 | a year has 366 days if it is a leap year and 365 otherwise, and the day count of the next year starts right after it |
| Calendar.NextDayIsOneLater | src/modeling/inference.py:36 | the next calendar day has the next day number |
| Calendar.DayOfWeekAdvances | src/modeling/inference.py:36-38 | the weekday advances by one each day, wrapping from Sunday (6) to Monday (0) |
| Calendar.KnownDays | src/modeling/inference.py:36 | 1970-01-01 and 2024-03-14 are Thursdays (3), 2024-03-16 is a Saturday (5), 2025-05-06 is a Tuesday (1) |
| WeatherGather.Keys | api/endpoints.py:163 | the names of the (borough, record) pairs, in order |
| WeatherGather.ErrorBoroughs | api/endpoints.py:165-167 | the failed-borough list is empty exactly when no record has an "error" key |
| WeatherGather.ErrorBoroughsAppend | api/endpoints.py:166 | the list keeps the order of the results: the failures of a concatenation are those of the first part followed by those of the second |
| WeatherGather.ErrorBoroughsMember | src/api/endpoints.py:65 | a name is listed exactly when some entry with that name has an "error" key |
| WeatherGather.Join | api/endpoints.py:170 | a single name joins to itself; with JoinAppend this fixes the join of every list |
| WeatherGather.JoinAppend | src/api/endpoints.py:69 | joining two non-empty lists gives their joins with one ", " between them, so the names appear in order |
| WeatherGather.FailureDetail | api/endpoints.py:170 | the 500 detail starts with "Error fetching weather for boroughs: "; with one failed borough it is that prefix followed by its name |
| WeatherApi.FieldTables | api/endpoints.py:121-139 | the daily table yields the eight historical keys and the current table the three current keys, without duplicates |
| WeatherApi.ErrorRecord | api/endpoints.py:103 | an error record has the single key "error" |
| WeatherApi.FallbackRecord | api/endpoints.py:109-119 | the fallback record has exactly the nine historical keys and no "error" key; it names its borough and every other value is a number |
| WeatherApi.ReadFields | api/endpoints.py:121-140 | a record built from a field table succeeds exactly when every field converts; it then has exactly the table's output keys, each holding its converted value |
| WeatherApi.DailyValue | api/endpoints.py:122-129 | an absent daily key gives 0; an empty daily list raises; a numeric first element is the value |
| WeatherApi.CurrentValue | api/endpoints.py:137-139 | an absent current key gives 0; a number is kept |
| WeatherApi.Daily | api/endpoints.py:100 | `data.get("daily", {})` succeeds exactly on a dictionary body, giving the daily value or an empty dictionary |
| WeatherApi.DayCount | api/endpoints.py:101 | `len(daily.get("time", []))` raises on a non-dictionary, is 0 without a "time" key and is the list length when "time" is a list |
| WeatherApi.NoMean | api/endpoints.py:107 | the mean temperature is missing or falsy |
| WeatherApi.NormaliseHistorical | api/endpoints.py:98-131 | a non-dictionary body raises; an error record is exactly the "no historical data" record; any other record has the nine historical keys and names its borough |
| WeatherApi.DailyRecordKeys | api/endpoints.py:123-131 | a daily record tagged with its borough has exactly the nine historical keys and no "error" key |
| WeatherApi.Current | api/endpoints.py:134 | the current block is reachable exactly when the body and its "current" value are dictionaries |
| WeatherApi.NormaliseCurrent | api/endpoints.py:132-140 | success exactly when the current block exists and all three fields convert; the record then has exactly the three keys with the converted upstream values |
| WeatherApi.NoDays | api/endpoints.py:101 | the daily object reports no day when it is empty or missing, when it has no "time" key, or when its "time" list is empty; a non-empty list, or a number or bool that `len` rejects, is not "no days" |
| WeatherApi.HistoricalNoData | api/endpoints.py:100-103 | the "no data" record is returned exactly when the daily block is missing or empty or its time list is missing or empty |
| WeatherApi.HistoricalFallback | api/endpoints.py:105-119 | with days but no usable mean temperature, the record is exactly the fixed fallback: 60, 50, 70, 0, 0, 180, 10, 1010 and the borough |
| WeatherApi.HistoricalFields | api/endpoints.py:121-131 | with days and a mean, each field is the first element of its daily list (0 if absent), and any unreadable field makes the normalisation raise |
| WeatherApi.Historical | api/endpoints.py:70 | `if date_str:` selects historical mode exactly for a present, non-empty date |
| WeatherApi.FetchBoroughWeather | api/endpoints.py:57-143 | an unparsable date raises before the `try`; otherwise the borough is preserved, a failed call gives its error record, error records hold only "error", and other records have exactly the keys of their mode and come from that mode's normalisation |
| WeatherApi.Gathered | api/endpoints.py:154-163 | the five fetches run in BOROUGHS order in current mode; entry i is borough i's fetch |
| WeatherApi.CoerceValue | api/endpoints.py:176 | a number is kept and any other value becomes 0.0 |
| WeatherApi.CoerceRecord | api/endpoints.py:176-177 | coercion keeps the keys, keeps numbers and makes any other value 0.0 |
| WeatherApi.CoercionKeepsCurrentRecords | api/endpoints.py:132-177 | a current-mode fetch never raises, and its non-error records hold only numbers, so coercion changes none of their values |
| WeatherApi.CoerceAll | api/endpoints.py:174-177 | the loop maps each borough to its coerced record, and holds no other keys |
| WeatherApi.GetWeather | api/endpoints.py:145-185 | a bad datetime gives 400; any error record gives 500 naming the failed boroughs in order; success exactly when it parses and no record failed, with every borough's coerced record |
| WeatherApi.PredictAccidents | api/endpoints.py:187-209 | the reply echoes the request date and holds exactly the two fixed predictions: (40.7128, -74.0060, Manhattan, 0.75) and (40.6782, -73.9442, Brooklyn, 0.60); both boroughs are known and both probabilities lie in [0, 1] |
| WeatherApi.PredictionsIgnoreDate | api/endpoints.py:190-208 | the predictions are the same for every date, and the replies differ exactly when the dates do |
| CurrentWeatherApi.ErrorRecord | src/api/endpoints.py:42 | an error record has the single key "error" |
| CurrentWeatherApi.Normalise | src/api/endpoints.py:33-40 | success exactly when the body and its "current" value are dictionaries; the record has exactly the three keys, each the upstream value or 0 |
| CurrentWeatherApi.FetchBoroughWeather | src/api/endpoints.py:17-42 | the borough is preserved; the record holds "error" exactly when the call or normalisation failed, and otherwise is the normalised record |
| CurrentWeatherApi.Gathered | src/api/endpoints.py:53-62 | the five fetches in BOROUGHS order |
| CurrentWeatherApi.AsFloat | src/api/endpoints.py:72 | pydantic's lax float validation keeps a number, reads a bool as 1.0 or 0.0, and agrees with Python's `float()` on every JSON value given the same string parser |
| CurrentWeatherApi.Validates | src/api/endpoints.py:72 | the response model accepts a record exactly when every value validates as a float |
| CurrentWeatherApi.Validated | src/api/endpoints.py:72 | the validated record keeps the keys and holds each value's float validation; a number is kept unchanged |
| CurrentWeatherApi.ResponseBody | src/api/endpoints.py:62-72 | every borough maps to its validated record, and no other key appears |
| CurrentWeatherApi.GetWeather | src/api/endpoints.py:44-77 | a bad datetime gives 400; any error record gives 500 naming the failed boroughs in order; a value the response model rejects gives the 400 too; success exactly when none of these happen |
| CurrentWeatherApi.ParseBeforeFetch | src/api/endpoints.py:48-75 | a bad datetime gives the same 400 whatever the upstream answers |
| CurrentWeatherApi.SuccessHasThreeFields | src/api/endpoints.py:36-72 | every borough of a successful reply has exactly the three fields |
| CurrentWeatherApi.CurrentBlock | src/api/endpoints.py:34 | the "current" dictionary of a body that has one |
| CurrentWeatherApi.NumberValidates | src/api/endpoints.py:36-40 | a number, a bool or an absent key (read as the default 0) validates to its float |
| CurrentWeatherApi.FetchNumeric | src/api/endpoints.py:30-40 | a body whose "current" values are numbers, bools or absent gives an error-free record that validates and holds the converted upstream values |
| CurrentWeatherApi.NormaliseKeeps | src/api/endpoints.py:36-40 | a present upstream value is copied unchanged under its output name |
| CurrentWeatherApi.SuccessKeepsNumbers | src/api/endpoints.py:36-72 | on success, every upstream number in a borough's "current" block is returned unchanged under its output name |
| CurrentWeatherApi.NumericCurrentSucceeds | src/api/endpoints.py:44-72 | with a valid datetime and numeric, bool or absent values for every borough, the reply is a success holding exactly those values (0 where absent) |
| Inference.FeatureColumnsDistinct | src/modeling/inference.py:56-62 | the thirteen feature columns are distinct, exclude "probability", and list the six weather keys at positions 4 to 9 |
| Inference.ComputableNext | src/modeling/inference.py:41-46 | once a weather key is known for a row, the next weather column is computable |
| Inference.FeatureValue | src/modeling/inference.py:35-53 | feature column c of a row: the hour, day of week, month, weekend flag, the borough weather value of column c, lat, lon or 0.0 |
| Inference.FeatureVector | src/modeling/inference.py:34-62 | the row's features, in order: hour, day of week (0..6), month, the weekend flag (day >= 5), the six borough weather values, the row's lat and lon, and distance 0 |
| Inference.Applied | src/modeling/inference.py:35-53 | after the first k column assignments, the row keeps lat, lon and borough; it has the k new columns holding their feature values; every other column is unchanged |
| Inference.Scored | src/modeling/inference.py:69 | a fully featured row with the classifier probability added as the "probability" column |
| Inference.SelectedIsFeatureVector | src/modeling/inference.py:56-63 | selecting the feature columns from a fully featured row gives exactly its feature vector |
| Inference.Select | src/modeling/inference.py:63 | one row of `frame[names]`: the named columns, in order |
| Inference.AssignColumn | src/modeling/inference.py:35-69 | one column is set on every row and nothing else changes |
| Inference.LookupColumn | src/modeling/inference.py:41-46 | the weather column exists exactly when every row's borough has the key; it then holds each row's borough value |
| Inference.Constant | src/modeling/inference.py:35-53 | a scalar column holds the scalar on every row |
| Inference.LatColumn | src/modeling/inference.py:50 | the copied column holds each row's latitude |
| Inference.LonColumn | src/modeling/inference.py:51 | the copied column holds each row's longitude |
| Inference.AssignFeature | src/modeling/inference.py:35-53 | assigning feature column k to a frame that holds the first k features makes it hold k + 1 |
| Inference.AddTimeFeatures | src/modeling/inference.py:34-38 | the frame holds the four time features on every row |
| Inference.WeatherReached | src/modeling/inference.py:41-46 | the lookups stop at the first weather key some row's borough lacks (or reach column 10); every earlier key is known for every row |
| Inference.AddWeatherColumn | src/modeling/inference.py:41-46 | one weather line succeeds exactly when every row has the key; on failure the frame is unchanged |
| Inference.AddWeatherFeatures | src/modeling/inference.py:41-46 | the frame holds the columns up to the first failing lookup; success exactly when all six are found |
| Inference.AddSpatialFeatures | src/modeling/inference.py:50-53 | the frame holds all thirteen features on every row |
| Inference.Frame | src/modeling/inference.py:63 | `frame[names]`: one selected row per row |
| Inference.Projection | src/modeling/inference.py:70 | the output has one prediction per row, in row order, copying lat, lon and borough and reading the probability column |
| Inference.Parses | src/modeling/inference.py:34 | `pd.to_datetime(date)` succeeds with a calendar month and day and an hour of the day, which the time features read |
| Inference.Predicted | src/modeling/inference.py:66-70 | the prediction returned for a row is the projection of the scored row onto lat, lon, borough and probability |
| Inference.PredictAccidentProbabilities | src/modeling/inference.py:22-70 | an unparsable date raises and leaves the frame untouched; a missing weather key raises KeyError and leaves the frame with the earlier columns; otherwise each row gains its features and probability, and the result is one prediction per row, holding its lat, lon and borough and the classifier's crash probability for its feature row |
| Inference.WeatherReachedComplete | src/modeling/inference.py:41-46 | the lookups run to the end exactly when every row's borough has every remaining key |
| Inference.SucceedsIffWeatherComplete | src/modeling/inference.py:41-46 | the step succeeds on a parsable date exactly when every row's borough has all six weather keys |
| Inference.TimeFeaturesShared | src/modeling/inference.py:35-38 | the time features are the same on every row |
| Inference.WeatherFeaturesByBorough | src/modeling/inference.py:41-46 | rows of the same borough get the same weather features |
| Inference.WeekendExample | src/modeling/inference.py:36-38 | a Saturday gives day 5 and weekend true; a Thursday gives weekend false |
| NycGrid.Ceil | src/preprocessing/nyc_grid.py:32-33 | the ceiling is the least integer at or above its argument |
| NycGrid.ArangeLength | src/preprocessing/nyc_grid.py:32-33 | the arange length is the least count whose next value reaches the stop |
| NycGrid.ArangeBounds | src/preprocessing/nyc_grid.py:32-33 | every value of the arange lies in [start, stop) |
| NycGrid.Arange | src/preprocessing/nyc_grid.py:32-33 | value i is start + i * step, every value lies in [start, stop), and one more step would reach the stop |
| NycGrid.Meshgrid | src/preprocessing/nyc_grid.py:36 | the first array repeats the longitudes along every row, the second the latitudes down every column |
| NycGrid.Flatten | src/preprocessing/nyc_grid.py:39-40 | `.flatten()` concatenates the rows in order |
| NycGrid.FlattenLength | src/preprocessing/nyc_grid.py:39-40 | a flattened rectangle of h rows of width w has h * w entries |
| NycGrid.FlattenAt | src/preprocessing/nyc_grid.py:39-40 | row-major flattening: entry i * w + j of a width-w rectangle is row i, column j |
| NycGrid.PlanarKey | src/preprocessing/nyc_grid.py:52 | the squared-degree key is non-negative |
| NycGrid.GridCoords | src/preprocessing/nyc_grid.py:36-46 | the flattened mesh has every latitude-longitude pair, latitude outer and longitude inner |
| NycGrid.GenerateNycGrid | src/preprocessing/nyc_grid.py:21-57 | the grid has len(lats) times len(lons) points; point k is (lats[k / len(lons)], lons[k % len(lons)]); all points lie in the bounding box; each is labelled with its nearest centroid |
| NycGrid.GetNycGrid | src/preprocessing/nyc_grid.py:59-64 | the default grid has 42 rows of 56 points; point k is at south + (k / 56) * 0.01 and west + (k % 56) * 0.01, lies in the bounding box, and is labelled with its nearest centroid |
| EnrichIntersections.GeoFloat | scripts/enrich_intersections.py:34 | geopy reads a coordinate as `float(x or 0.0)`: every falsy value is 0.0, a number is kept, a non-empty list or dictionary raises TypeError, a non-empty string converts exactly when it parses |
| EnrichIntersections.PointCoord | scripts/enrich_intersections.py:30-34 | a point whose "lat" or "lon" cannot be read raises; a latitude given with a null longitude is taken by geopy as a whole point: a number or bool raises ValueError and any other value is parsed on its own; otherwise the point exists exactly when both coordinates normalise and the latitude lies in [-90, 90], it is then the pair of normalised values, and a latitude outside that range raises ValueError |
| EnrichIntersections.EnrichOne | scripts/enrich_intersections.py:30-41 | a record exists exactly when the coordinates and "id" can be read; it has exactly id, lat, lon and nearest_borough, copies the first three, and names the nearest borough |
| EnrichIntersections.Enrich | scripts/enrich_intersections.py:27-41 | success exactly when every point can be enriched, giving one record per point in order; otherwise the first failing point's exception, with all earlier points enriched |
| EnrichIntersections.NullLatitudeEnriched | scripts/enrich_intersections.py:30-41 | a point with a null latitude is enriched at latitude 0.0, and its record keeps the null |
| EnrichIntersections.LatitudeOutOfRangeRaises | scripts/enrich_intersections.py:30-35 | a latitude of 91 makes the point raise ValueError |
| EnrichIntersections.NullLongitudeRaises | scripts/enrich_intersections.py:30-35 | a numeric latitude with a null longitude makes the point raise ValueError |

## Left out

- HTTP, `httpx`, `asyncio.gather` and logging are not modelled. Each borough's response or raised exception is an input, and the five fetches happen in BOROUGHS order.
- Request parsing is not modelled: the pydantic request models and FastAPI routing are left out. Response validation is modelled in CurrentWeatherApi.AsFloat. Only pydantic's syntax for numbers written as strings is an input (`parseStr`).
- Exception messages are not modelled: `str(e)` is represented by the exception's class name.
- WeatherApi.GetWeather and CurrentWeatherApi.GetWeather: the 500 detail is the "Error fetching weather for boroughs: ..." text. The code raises that HTTPException inside its own `try`, and the enclosing `except Exception` (api/endpoints.py:183-185, src/api/endpoints.py:76-77) wraps it in a new 500 whose detail is `str()` of the first. That text depends on the web framework and is not modelled.
- WeatherApi.GetWeather: the historical branch of `fetch_borough_weather` is unreachable from `get_weather`, which never passes a date. It is modelled in WeatherApi.FetchBoroughWeather alone.
- The health check endpoint (api/endpoints.py:37-47) is left out: it only reads the clock.
- Floating point is modelled as exact reals: `np.arange` end-point rounding, `float` parsing and pandas dtypes are all exact here.
- NycGrid.GenerateNycGrid: requires a positive resolution. The code is only ever called with 0.01, and numpy's behaviour for a zero or negative step is not modelled.
- EnrichIntersections.Enrich: geopy's `great_circle` is an abstract distance. Its trigonometry is not modelled.
- EnrichIntersections.PointCoord: geopy's two-coordinate normalisation is written out as `float(x or 0.0)` with the [-90, 90] latitude check. Its reduction of longitudes beyond 180 degrees is not modelled: the distance receives the longitude as converted. Its finiteness check is not modelled either, because reals are finite. When a latitude comes with a null longitude, geopy's parsing of a string, list or dictionary latitude as a whole point is an input (`single`).
- EnrichIntersections.Enrich takes the decoded file as a list of points. A top-level value of any other JSON kind is not modelled.
- Reading and writing the intersection files (scripts/enrich_intersections.py:15-24, 43-52) is left out. So are loading the classifier and the random `DummyModel` (src/modeling/inference.py:9-20): the classifier is an input.
- Inference.PredictAccidentProbabilities: `pd.to_datetime` is an input (`parseDate`) that yields a valid date and hour or fails. Timezones and sub-hour fields are not modelled. The NaT result is not modelled either: for inputs such as `""`, `"NaT"` or `"nan"`, pandas returns NaT instead of raising, and the function then goes on with NaN time features.
- Inference.PredictAccidentProbabilities: duplicate column labels are not modelled. A pandas frame may hold two columns with the same label, for example two "lat" columns. Then `grid_df["lat"]` selects a frame of both rather than one series, and the copies and the final projection change shape. A model Row has exactly one lat, one lon and one borough, and one cell per other column name (its `added` map).
- Inference.PredictAccidentProbabilities: numpy arrays and pandas dtypes are not modelled; cells are integers, booleans or reals.
- Files outside the five core modules are not part of this model: the old ingest scripts, the training script, the web app, the tests and the traffic fetcher.
