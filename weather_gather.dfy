/** What the two `get_weather` endpoints share once the five fetches have come
    back: the (borough, record) pairs in BOROUGHS order, the list of boroughs
    whose record carries an "error" key, and the HTTP reply. */
module WeatherGather {
  import opened Boroughs
  import opened PyJson

  /** One borough's upstream call: the decoded JSON body, or the text of the
      exception raised by the request, the status check or the JSON decoding. */
  datatype Upstream = Body(data: Json) | Failed(reason: string)

  /** A response body or an HTTP error status with its detail text. */
  datatype Reply<+T> = Success(body: T) | HttpError(status: int, detail: string)

  const INVALID_DATETIME := "Invalid datetime format"
  const FAILURE_PREFIX := "Error fetching weather for boroughs: "

  /** The first components of a list of pairs, in order: the borough names
      of a result list, or the output keys of a field table. */
  function Keys<A, B>(pairs: seq<(A, B)>): (names: seq<A>)
    ensures |names| == |pairs|
    ensures forall i :: 0 <= i < |pairs| ==> names[i] == pairs[i].0
  {
    seq(|pairs|, i requires 0 <= i < |pairs| => pairs[i].0)
  }

  /** `[borough for borough, data in items if "error" in data]`. */
  function ErrorBoroughs<V>(results: seq<(string, map<string, V>)>): (errs: seq<string>)
    ensures |errs| <= |results|
    ensures errs == [] <==> forall i :: 0 <= i < |results| ==> "error" !in results[i].1
  {
    if results == [] then []
    else
      var rest := ErrorBoroughs(results[1..]);
      assert forall i :: 1 <= i < |results| ==> results[i] == results[1..][i - 1];
      if "error" in results[0].1 then [results[0].0] + rest else rest
  }

  /** The failed-borough list keeps the order of `results`: the failures of a
      concatenation are the failures of the first part followed by those of the
      second. With ErrorBoroughsMember, this determines the list completely. */
  lemma {:induction false} ErrorBoroughsAppend<V>(a: seq<(string, map<string, V>)>, b: seq<(string, map<string, V>)>)
    ensures ErrorBoroughs(a + b) == ErrorBoroughs(a) + ErrorBoroughs(b)
  {
    if a == [] {
      assert a + b == b;
    } else {
      assert (a + b)[1..] == a[1..] + b;
      ErrorBoroughsAppend(a[1..], b);
    }
  }

  /** A name is listed exactly when some entry with that name has an "error" key. */
  lemma {:induction false} ErrorBoroughsMember<V>(results: seq<(string, map<string, V>)>, name: string)
    ensures name in ErrorBoroughs(results) <==>
      exists i :: 0 <= i < |results| && results[i].0 == name && "error" in results[i].1
  {
    if results != [] {
      ErrorBoroughsMember(results[1..], name);
      if name in ErrorBoroughs(results[1..]) {
        var i :| 0 <= i < |results[1..]| && results[1..][i].0 == name && "error" in results[1..][i].1;
        assert results[i + 1] == results[1..][i];
      }
      if exists i :: 0 <= i < |results| && results[i].0 == name && "error" in results[i].1 {
        var i :| 0 <= i < |results| && results[i].0 == name && "error" in results[i].1;
        if i > 0 {
          assert results[1..][i - 1] == results[i];
        }
      }
    }
  }

  /** `", ".join(parts)`. */
  function Join(parts: seq<string>): (s: string)
    ensures |parts| == 1 ==> s == parts[0]
  {
    if parts == [] then ""
    else if |parts| == 1 then parts[0]
    else parts[0] + ", " + Join(parts[1..])
  }

  /** Joining two non-empty lists puts one separator between their joins. */
  lemma {:induction false} JoinAppend(a: seq<string>, b: seq<string>)
    requires a != [] && b != []
    ensures Join(a + b) == Join(a) + ", " + Join(b)
  {
    if |a| == 1 {
      assert (a + b)[1..] == b;
    } else {
      assert (a + b)[1..] == a[1..] + b;
      JoinAppend(a[1..], b);
    }
  }

  /** The 500 detail that names the failed boroughs: the fixed prefix, then
      the names separated by ", ". */
  function FailureDetail(failed: seq<string>): (d: string)
    ensures |d| >= |FAILURE_PREFIX| && d[..|FAILURE_PREFIX|] == FAILURE_PREFIX
    ensures |failed| == 1 ==> d == FAILURE_PREFIX + failed[0]
  {
    FAILURE_PREFIX + Join(failed)
  }
}
