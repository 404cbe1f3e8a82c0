/** The part of a Fetch `Response` the scanner reads: the status code, the
    header list and the body text. */
module Http {
  import opened Wrappers
  import opened Text

  /** The header list in the order `Headers.forEach` visits it. Each name
      is expected at most once (the Fetch `Headers` object merges repeats). */
  type Headers = seq<(string, string)>

  datatype Response = Response(status: int, headers: Headers, body: string)

  /** `response.ok`: the status is in 200..299. */
  predicate IsOk(status: int) {
    200 <= status <= 299
  }

  /** The statuses the relay and the probes treat as "the resource exists":
      success, or access denied (401/403). */
  predicate SignalsExistence(status: int) {
    IsOk(status) || status == 401 || status == 403
  }

  /** `headers.get(name)`: the value of the first entry whose name equals
      `name` ignoring ASCII case, or `null`. */
  function HeaderGet(hs: Headers, name: string): (r: Option<string>)
    ensures r.Some? <==> exists i :: 0 <= i < |hs| && ToLower(hs[i].0) == ToLower(name)
    ensures r.Some? ==> exists i :: 0 <= i < |hs| && ToLower(hs[i].0) == ToLower(name) && hs[i].1 == r.value
  {
    if hs == [] then None
    else if ToLower(hs[0].0) == ToLower(name) then Some(hs[0].1)
    else
      var r := HeaderGet(hs[1..], name);
      assert forall i :: 0 <= i < |hs| - 1 ==> hs[1..][i] == hs[i + 1];
      r
  }

  /** A header value counts as present only when it is a non-empty string
      (`if (value)` in the source). */
  predicate Present(v: Option<string>) {
    v.Some? && v.value != ""
  }

  /** What `checkEndpointExists` reports for one probe. */
  datatype ExistsResult = ExistsResult(exists_: bool, statusCode: int)

  /** `checkEndpointExists` given the outcome of its one relay fetch
      (`None` when the fetch threw): it never fails, and any error reads as
      "does not exist, status 0". */
  function Probe(r: Option<Response>): (e: ExistsResult)
    ensures r.None? ==> e == ExistsResult(false, 0)
    ensures r.Some? ==> (e.statusCode == r.value.status
      && (e.exists_ <==> SignalsExistence(r.value.status)))
  {
    match r
    case None => ExistsResult(false, 0)
    case Some(resp) => ExistsResult(SignalsExistence(resp.status), resp.status)
  }
}
