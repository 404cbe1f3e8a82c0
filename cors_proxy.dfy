/** The relay transport of src/lib/cors-proxy.ts. The browser cannot read
    other origins, so every request goes through one of three public CORS
    proxies. Module-level state (the rotating proxy index, the per-proxy
    health records and a one-minute response cache) persists across calls.

    The network is an oracle `net(url, proxy)` giving the outcome of one
    attempt through one proxy, and `Date.now()` is the parameter `now`. */
module Relay {
  import opened Wrappers
  import opened Seqs
  import opened Http
  import opened Text

  datatype Proxy = Proxy(url: string, name: string)

  /** `CORS_PROXIES`, in the order they are preferred. */
  const CorsProxies: seq<Proxy> := [
    Proxy("https://api.allorigins.win/raw?url=", "AllOrigins"),
    Proxy("https://corsproxy.io/?", "CorsProxy.io"),
    Proxy("https://api.codetabs.com/v1/proxy?quest=", "CodeTabs")
  ]

  /** `CACHE_TTL`: a cached response is served for one minute. */
  const CacheTtl: int := 60000
  /** A proxy is retried this long after its last success, whatever its failures. */
  const HealthGrace: int := 120000
  /** Proxies with this many failures in a row are skipped. */
  const MaxFailures: nat := 2
  /** Shorter bodies are taken for a proxy's own error page. */
  const MinBodyLength: nat := 100

  datatype Health = Health(failures: nat, lastSuccess: int)

  datatype CacheEntry = CacheEntry(data: Response, timestamp: int)

  /** The outcome of one `fetch` through one proxy: it threw (network
      error, abort after the timeout), or a response arrived. */
  datatype Attempt = Thrown(message: string) | Resp(response: Response)

  /** One entry of the `errors` list: "<proxy>: HTTP <status>",
      "<proxy>: Empty response" or "<proxy>: <error message>". */
  datatype Reason =
    | HttpStatus(proxy: string, status: int)
    | EmptyResponse(proxy: string)
    | Failed(proxy: string, message: string)

  /** The three module-level variables as one value. */
  datatype RelayState = RelayState(
    index: nat, health: map<string, Health>, cache: map<string, CacheEntry>)

  // ---------------------------------------------------------------------
  // Proxy selection

  /** The test of `getHealthyProxies`: no record, or the last success is more
      than two minutes old, or fewer than two failures. */
  predicate Healthy(health: map<string, Health>, p: Proxy, now: int) {
    p.name !in health
    || now - health[p.name].lastSuccess > HealthGrace
    || health[p.name].failures < MaxFailures
  }

  /** `getHealthyProxies`. */
  function HealthyProxies(health: map<string, Health>, now: int): seq<Proxy> {
    Filter(CorsProxies, p => Healthy(health, p, now))
  }

  /** `proxiesToTry`: the healthy proxies, or all of them when none is healthy. */
  function ProxiesToTry(health: map<string, Health>, now: int): (ps: seq<Proxy>)
    ensures ps != []
  {
    var healthy := HealthyProxies(health, now);
    if |healthy| > 0 then healthy else CorsProxies
  }

  /** The proxy tried at step `i` of a call: the rotation starts at the
      remembered index. */
  function At(ps: seq<Proxy>, index: nat, i: nat): Proxy
    requires ps != []
  {
    ps[(index + i) % |ps|]
  }

  // ---------------------------------------------------------------------
  // One call of fetchWithProxy

  /** A fresh cache entry for exactly this (unencoded) url. */
  predicate CacheHit(cache: map<string, CacheEntry>, url: string, useCache: bool, now: int) {
    useCache && url in cache && now - cache[url].timestamp < CacheTtl
  }

  /** A response is kept when its status says the resource exists (2xx,
      401, 403) and its body is long enough. */
  predicate Accepts(a: Attempt) {
    a.Resp? && SignalsExistence(a.response.status) && Utf16Length(a.response.body) >= MinBodyLength
  }

  /** The failure record after an attempt through `name` threw: a missing
      record starts from zero failures and a last success at time 0. */
  function CountFailure(health: map<string, Health>, name: string): map<string, Health> {
    var h := if name in health then health[name] else Health(0, 0);
    health[name := h.(failures := h.failures + 1)]
  }

  /** Why a response that arrived was not kept. */
  function Rejection(name: string, resp: Response): Reason {
    if !SignalsExistence(resp.status) then HttpStatus(name, resp.status) else EmptyResponse(name)
  }

  /** The state after `ps[k]` accepted `resp`: its failures reset and its
      last success stamped, the index moved to `k`, and the response cached
      when caching is on and the status is 2xx. */
  function Accepted(st: RelayState, ps: seq<Proxy>, k: nat, url: string, useCache: bool,
                    now: int, resp: Response): RelayState
    requires k < |ps|
  {
    RelayState(k, st.health[ps[k].name := Health(0, now)],
               if useCache && IsOk(resp.status) then st.cache[url := CacheEntry(resp, now)] else st.cache)
  }

  /** The attempt loop from step `i` on, with the reasons gathered so far. */
  function TryFrom(st: RelayState, ps: seq<Proxy>, i: nat, url: string, useCache: bool,
                   now: int, net: (string, Proxy) -> Attempt, errors: seq<Reason>): (RelayState, Result<Response, seq<Reason>>)
    requires ps != []
    decreases |ps| - i
  {
    if i >= |ps| then (st, Err(errors))
    else
      var k := (st.index + i) % |ps|;
      var p := ps[k];
      match net(url, p)
      case Thrown(msg) =>
        TryFrom(st.(health := CountFailure(st.health, p.name)), ps, i + 1, url, useCache, now, net,
                errors + [Failed(p.name, msg)])
      case Resp(resp) =>
        if Accepts(Resp(resp)) then (Accepted(st, ps, k, url, useCache, now, resp), Ok(resp))
        else TryFrom(st, ps, i + 1, url, useCache, now, net, errors + [Rejection(p.name, resp)])
  }

  lemma TryFromThrown(st: RelayState, ps: seq<Proxy>, i: nat, url: string, useCache: bool,
                      now: int, net: (string, Proxy) -> Attempt, errors: seq<Reason>, msg: string)
    requires i < |ps| && net(url, ps[(st.index + i) % |ps|]) == Thrown(msg)
    ensures var name := ps[(st.index + i) % |ps|].name;
      TryFrom(st, ps, i, url, useCache, now, net, errors)
      == TryFrom(st.(health := CountFailure(st.health, name)), ps, i + 1, url, useCache, now, net,
                 errors + [Failed(name, msg)])
  {
  }

  lemma TryFromRejected(st: RelayState, ps: seq<Proxy>, i: nat, url: string, useCache: bool,
                        now: int, net: (string, Proxy) -> Attempt, errors: seq<Reason>, resp: Response)
    requires i < |ps| && net(url, ps[(st.index + i) % |ps|]) == Resp(resp) && !Accepts(Resp(resp))
    ensures TryFrom(st, ps, i, url, useCache, now, net, errors)
      == TryFrom(st, ps, i + 1, url, useCache, now, net, errors + [Rejection(ps[(st.index + i) % |ps|].name, resp)])
  {
  }

  lemma TryFromAccepted(st: RelayState, ps: seq<Proxy>, i: nat, url: string, useCache: bool,
                        now: int, net: (string, Proxy) -> Attempt, errors: seq<Reason>, resp: Response)
    requires i < |ps| && net(url, ps[(st.index + i) % |ps|]) == Resp(resp) && Accepts(Resp(resp))
    ensures TryFrom(st, ps, i, url, useCache, now, net, errors)
      == (Accepted(st, ps, (st.index + i) % |ps|, url, useCache, now, resp), Ok(resp))
  {
  }

  /** `fetchWithProxy(url, useCache)`: the new relay state and the response,
      or the list of per-proxy reasons when every proxy failed. */
  function Fetch(st: RelayState, url: string, useCache: bool, now: int,
                 net: (string, Proxy) -> Attempt): (RelayState, Result<Response, seq<Reason>>)
  {
    if CacheHit(st.cache, url, useCache, now) then (st, Ok(st.cache[url].data))
    else TryFrom(st, ProxiesToTry(st.health, now), 0, url, useCache, now, net, [])
  }

  /** Every cached response was accepted with a 2xx status. */
  predicate CacheValid(cache: map<string, CacheEntry>) {
    forall u :: u in cache ==> IsOk(cache[u].data.status) && Utf16Length(cache[u].data.body) >= MinBodyLength
  }

  lemma CacheValidInsert(cache: map<string, CacheEntry>, url: string, e: CacheEntry)
    requires CacheValid(cache)
    requires IsOk(e.data.status) && Utf16Length(e.data.body) >= MinBodyLength
    ensures CacheValid(cache[url := e])
  {
  }

  /** The length test counts UTF-16 code units: fifty characters from beyond
      the Basic Multilingual Plane (emoji, say) already make a body long
      enough, while ninety-nine ASCII characters do not. */
  lemma {:induction false} LengthCountsCodeUnits(status: int, headers: Headers, body: string)
    requires SignalsExistence(status)
    ensures (|body| >= 50 && forall i :: 0 <= i < |body| ==> body[i] as int > 0xFFFF)
            ==> Accepts(Resp(Response(status, headers, body)))
    ensures (|body| < 100 && forall i :: 0 <= i < |body| ==> body[i] as int <= 0xFFFF)
            ==> !Accepts(Resp(Response(status, headers, body)))
  {
    Utf16LengthBounds(body);
  }

  /** The attempt loop only ever caches accepted 2xx responses. */
  lemma {:induction false} TryFromKeepsCacheValid(st: RelayState, ps: seq<Proxy>, i: nat, url: string, useCache: bool,
                                                  now: int, net: (string, Proxy) -> Attempt, errors: seq<Reason>)
    requires ps != [] && CacheValid(st.cache)
    ensures CacheValid(TryFrom(st, ps, i, url, useCache, now, net, errors).0.cache)
    decreases |ps| - i
  {
    if i < |ps| {
      var k := (st.index + i) % |ps|;
      match net(url, ps[k])
      case Thrown(msg) =>
        TryFromKeepsCacheValid(st.(health := CountFailure(st.health, ps[k].name)), ps, i + 1, url, useCache, now, net,
                               errors + [Failed(ps[k].name, msg)]);
      case Resp(resp) =>
        if Accepts(Resp(resp)) {
          if useCache && IsOk(resp.status) {
            CacheValidInsert(st.cache, url, CacheEntry(resp, now));
          }
        } else {
          TryFromKeepsCacheValid(st, ps, i + 1, url, useCache, now, net, errors + [Rejection(ps[k].name, resp)]);
        }
    }
  }

  /** The attempt loop of `fetchWithProxy`, on a snapshot of the relay state:
      each proxy once, in rotation from the remembered index. */
  method TryProxies(st0: RelayState, proxiesToTry: seq<Proxy>, url: string, useCache: bool,
                    now: int, net: (string, Proxy) -> Attempt)
    returns (st: RelayState, r: Result<Response, seq<Reason>>)
    requires proxiesToTry != []
    ensures (st, r) == TryFrom(st0, proxiesToTry, 0, url, useCache, now, net, [])
  {
    ghost var goal := TryFrom(st0, proxiesToTry, 0, url, useCache, now, net, []);
    st := st0;
    var errors: seq<Reason> := [];
    var i := 0;
    while i < |proxiesToTry|
      invariant 0 <= i <= |proxiesToTry|
      invariant TryFrom(st, proxiesToTry, i, url, useCache, now, net, errors) == goal
    {
      var proxyIndex := (st.index + i) % |proxiesToTry|;
      var proxy := proxiesToTry[proxyIndex];
      match net(url, proxy) {
        case Thrown(msg) =>
          assert TryFrom(st.(health := CountFailure(st.health, proxy.name)), proxiesToTry, i + 1,
                         url, useCache, now, net, errors + [Failed(proxy.name, msg)]) == goal by {
            TryFromThrown(st, proxiesToTry, i, url, useCache, now, net, errors, msg);
          }
          var health := if proxy.name in st.health then st.health[proxy.name] else Health(0, 0);
          st := st.(health := st.health[proxy.name := health.(failures := health.failures + 1)]);
          errors := errors + [Failed(proxy.name, msg)];
        case Resp(response) =>
          if !IsOk(response.status) && response.status != 403 && response.status != 401 {
            assert TryFrom(st, proxiesToTry, i + 1, url, useCache, now, net,
                           errors + [HttpStatus(proxy.name, response.status)]) == goal by {
              TryFromRejected(st, proxiesToTry, i, url, useCache, now, net, errors, response);
            }
            errors := errors + [HttpStatus(proxy.name, response.status)];
          } else if Utf16Length(response.body) < MinBodyLength {
            assert TryFrom(st, proxiesToTry, i + 1, url, useCache, now, net,
                           errors + [EmptyResponse(proxy.name)]) == goal by {
              TryFromRejected(st, proxiesToTry, i, url, useCache, now, net, errors, response);
            }
            errors := errors + [EmptyResponse(proxy.name)];
          } else {
            assert goal == (Accepted(st, proxiesToTry, proxyIndex, url, useCache, now, response), Ok(response)) by {
              TryFromAccepted(st, proxiesToTry, i, url, useCache, now, net, errors, response);
            }
            st := st.(health := st.health[proxy.name := Health(0, now)], index := proxyIndex);
            if useCache && IsOk(response.status) {
              st := st.(cache := st.cache[url := CacheEntry(response, now)]);
            }
            return st, Ok(response);
          }
      }
      i := i + 1;
    }
    return st, Err(errors);
  }

  // ---------------------------------------------------------------------
  // checkEndpointsBatch, sequentially

  /** `checkEndpointExists` on the relay state: the state after its one
      fetch, and what the probe reports. */
  function ProbeOne(st: RelayState, url: string, now: int, net: (string, Proxy) -> Attempt): (RelayState, ExistsResult) {
    var (st1, r) := Fetch(st, url, true, now, net);
    (st1, Probe(r.ToOption()))
  }

  /** `ProbeOne` as a step function, for the sweeps below. */
  function ProbeStep(now: int, net: (string, Proxy) -> Attempt): (RelayState, string) -> (RelayState, ExistsResult) {
    (st, url) => ProbeOne(st, url, now, net)
  }

  /** Running `step` over `urls` in order: the final state and the result
      map, a later duplicate overwriting an earlier one. */
  function Sweep(st: RelayState, urls: seq<string>, step: (RelayState, string) -> (RelayState, ExistsResult))
    : (RelayState, map<string, ExistsResult>)
  {
    if urls == [] then (st, map[])
    else
      var (st1, m) := Sweep(st, urls[..|urls| - 1], step);
      var (st2, e) := step(st1, urls[|urls| - 1]);
      (st2, m[urls[|urls| - 1] := e])
  }

  /** `checkEndpointsBatch` with the probes run one after the other. */
  function ProbeAll(st: RelayState, urls: seq<string>, now: int,
                    net: (string, Proxy) -> Attempt): (RelayState, map<string, ExistsResult>)
  {
    Sweep(st, urls, ProbeStep(now, net))
  }

  lemma SweepSnoc(st: RelayState, urls: seq<string>, u: string, step: (RelayState, string) -> (RelayState, ExistsResult))
    ensures Sweep(st, urls + [u], step)
      == (step(Sweep(st, urls, step).0, u).0, Sweep(st, urls, step).1[u := step(Sweep(st, urls, step).0, u).1])
  {
    assert (urls + [u])[..|urls|] == urls;
  }

  /** Sweeping `a + b` is sweeping `a`, then `b` from where `a` left the
      relay, with `b`'s results overriding `a`'s. */
  lemma {:induction false} SweepAppend(st: RelayState, a: seq<string>, b: seq<string>,
                                       step: (RelayState, string) -> (RelayState, ExistsResult))
    ensures Sweep(st, a + b, step).0 == Sweep(Sweep(st, a, step).0, b, step).0
    ensures Sweep(st, a + b, step).1 == Sweep(st, a, step).1 + Sweep(Sweep(st, a, step).0, b, step).1
  {
    if b == [] {
      assert a + b == a;
    } else {
      var b' := b[..|b| - 1];
      var u := b[|b| - 1];
      assert b == b' + [u];
      assert a + b == (a + b') + [u];
      SweepAppend(st, a, b', step);
      var (s1, m1) := Sweep(st, a, step);
      var (s2, m2) := Sweep(s1, b', step);
      var (s3, e) := step(s2, u);
      SweepSnoc(st, a + b', u, step);
      SweepSnoc(s1, b', u, step);
      UnionUpdate(m1, m2, u, e);
    }
  }

  lemma UnionUpdate<K, V>(m1: map<K, V>, m2: map<K, V>, k: K, v: V)
    ensures (m1 + m2)[k := v] == m1 + m2[k := v]
  {
  }

  // ---------------------------------------------------------------------
  // The module-level state

  class RelayTransport {
    var currentProxyIndex: nat
    var proxyHealth: map<string, Health>
    var requestCache: map<string, CacheEntry>

    function State(): RelayState
      reads this
    {
      RelayState(currentProxyIndex, proxyHealth, requestCache)
    }

    predicate Valid()
      reads this
    {
      CacheValid(requestCache)
    }

    /** The state at page load: index 0, no health records, empty cache. */
    constructor()
      ensures Valid()
      ensures State() == RelayState(0, map[], map[])
    {
      currentProxyIndex := 0;
      proxyHealth := map[];
      requestCache := map[];
    }

    /** `fetchWithProxy`. */
    method FetchWithProxy(url: string, useCache: bool, now: int, net: (string, Proxy) -> Attempt)
      returns (r: Result<Response, seq<Reason>>)
      requires Valid()
      modifies this
      ensures Valid()
      ensures (State(), r) == Fetch(old(State()), url, useCache, now, net)
    {
      if useCache && url in requestCache && now - requestCache[url].timestamp < CacheTtl {
        return Ok(requestCache[url].data);
      }
      var healthy := HealthyProxies(proxyHealth, now);
      var proxiesToTry := if |healthy| > 0 then healthy else CorsProxies;
      var st;
      st, r := TryProxies(State(), proxiesToTry, url, useCache, now, net);
      TryFromKeepsCacheValid(State(), proxiesToTry, 0, url, useCache, now, net, []);
      currentProxyIndex, proxyHealth, requestCache := st.index, st.health, st.cache;
    }

    /** `checkEndpointExists`: never fails; a relay failure reads as
        "does not exist, status 0". */
    method CheckEndpointExists(url: string, now: int, net: (string, Proxy) -> Attempt)
      returns (e: ExistsResult)
      requires Valid()
      modifies this
      ensures Valid()
      ensures (State(), e) == ProbeOne(old(State()), url, now, net)
    {
      var r := FetchWithProxy(url, true, now, net);
      match r
      case Ok(response) =>
        e := ExistsResult(IsOk(response.status) || response.status == 403 || response.status == 401,
                          response.status);
      case Err(_) =>
        e := ExistsResult(false, 0);
    }

    /** One slice of `checkEndpointsBatch`: its urls probed one after the
        other (the source runs them concurrently), and their results. */
    method ProbeSlice(batch: seq<string>, now: int, net: (string, Proxy) -> Attempt)
      returns (batchResults: map<string, ExistsResult>)
      requires Valid()
      modifies this
      ensures Valid()
      ensures (State(), batchResults) == ProbeAll(old(State()), batch, now, net)
    {
      ghost var st0 := State();
      ghost var step := ProbeStep(now, net);
      batchResults := map[];
      for j := 0 to |batch|
        invariant Valid()
        invariant State() == Sweep(st0, batch[..j], step).0
        invariant batchResults == Sweep(st0, batch[..j], step).1
      {
        assert batch[..j + 1] == batch[..j] + [batch[j]];
        SweepSnoc(st0, batch[..j], batch[j], step);
        assert step(State(), batch[j]) == ProbeOne(State(), batch[j], now, net);
        var result := CheckEndpointExists(batch[j], now, net);
        batchResults := batchResults[batch[j] := result];
      }
      assert batch[..|batch|] == batch;
    }

    /** `checkEndpointsBatch`: the urls in consecutive slices of `concurrency`. */
    method CheckEndpointsBatch(urls: seq<string>, concurrency: nat, now: int, net: (string, Proxy) -> Attempt)
      returns (results: map<string, ExistsResult>)
      requires concurrency > 0
      requires Valid()
      modifies this
      ensures Valid()
      ensures (State(), results) == ProbeAll(old(State()), urls, now, net)
    {
      ghost var st0 := State();
      ghost var step := ProbeStep(now, net);
      results := map[];
      var i := 0;
      while i < |urls|
        invariant 0 <= i <= |urls|
        invariant Valid()
        invariant State() == Sweep(st0, urls[..i], step).0
        invariant results == Sweep(st0, urls[..i], step).1
      {
        var end := if i + concurrency <= |urls| then i + concurrency else |urls|;
        var batch := urls[i..end];
        assert urls[..end] == urls[..i] + batch;
        SweepAppend(st0, urls[..i], batch, step);
        var batchResults := ProbeSlice(batch, now, net);
        results := results + batchResults;
        i := end;
      }
      assert urls[..|urls|] == urls;
    }

    /** `clearCache`: drops every cached response and nothing else. */
    method ClearCache()
      requires Valid()
      modifies this
      ensures Valid()
      ensures State() == old(State()).(cache := map[])
    {
      requestCache := map[];
    }
  }

  // ---------------------------------------------------------------------
  // Properties of the relay

  /** Proxy selection: a proxy is offered iff it is one of the three and
      passes the health test; when none passes, all three are offered. */
  lemma HealthyProxiesMembership(health: map<string, Health>, now: int, p: Proxy)
    ensures p in HealthyProxies(health, now) <==> p in CorsProxies && Healthy(health, p, now)
    ensures HealthyProxies(health, now) == [] ==> ProxiesToTry(health, now) == CorsProxies
  {
    FilterMembership(CorsProxies, q => Healthy(health, q, now), p);
  }

  /** A proxy that has failed but never succeeded keeps the last-success
      time 0, so once the clock is past two minutes it is always offered. */
  lemma NeverSucceededIsRetried(health: map<string, Health>, now: int, p: Proxy)
    requires p in CorsProxies
    requires p.name in health && health[p.name].lastSuccess == 0
    requires now > HealthGrace
    ensures p in ProxiesToTry(health, now)
  {
    HealthyProxiesMembership(health, now, p);
  }

  lemma MulSign(d: int, n: int)
    requires n > 0
    ensures d >= 1 ==> d * n >= n
    ensures d <= 0 ==> d * n <= 0
  {
    if d >= 1 {
      assert (d - 1) * n >= 0;
    } else {
      assert (-d) * n >= 0;
    }
  }

  /** The rotation visits `n` distinct positions in `n` steps, so one call
      tries each proxy of the list exactly once. */
  lemma RotationVisitsEachOnce(index: nat, n: nat, i: nat, j: nat)
    requires i < j < n
    ensures (index + i) % n != (index + j) % n
  {
    var a := index + i;
    var b := index + j;
    assert a == (a / n) * n + a % n;
    assert b == (b / n) * n + b % n;
    if a % n == b % n {
      var d := b / n - a / n;
      assert b - a == d * n;
      MulSign(d, n);
    }
  }

  /** The attempt loop fails iff no remaining proxy accepts. */
  lemma {:induction false} TryFromFails(st: RelayState, ps: seq<Proxy>, i: nat, url: string, useCache: bool,
                                        now: int, net: (string, Proxy) -> Attempt, errors: seq<Reason>)
    requires ps != [] && i <= |ps|
    ensures (TryFrom(st, ps, i, url, useCache, now, net, errors).1.Err?
             <==> forall j :: i <= j < |ps| ==> !Accepts(net(url, At(ps, st.index, j))))
    decreases |ps| - i
  {
    if i < |ps| {
      var p := ps[(st.index + i) % |ps|];
      assert At(ps, st.index, i) == p;
      match net(url, p)
      case Thrown(msg) =>
        TryFromFails(st.(health := CountFailure(st.health, p.name)), ps, i + 1, url, useCache, now, net,
                     errors + [Failed(p.name, msg)]);
      case Resp(resp) =>
        if !Accepts(Resp(resp)) {
          TryFromFails(st, ps, i + 1, url, useCache, now, net, errors + [Rejection(p.name, resp)]);
        }
    }
  }

  /** A failed attempt loop leaves the index and the cache alone and adds one
      reason per remaining proxy, in the order they were tried. */
  lemma {:induction false} FailureReport(st: RelayState, ps: seq<Proxy>, i: nat, url: string, useCache: bool,
                                         now: int, net: (string, Proxy) -> Attempt, errors: seq<Reason>)
    requires ps != [] && i <= |ps|
    requires TryFrom(st, ps, i, url, useCache, now, net, errors).1.Err?
    ensures var (st', r) := TryFrom(st, ps, i, url, useCache, now, net, errors);
      st'.index == st.index && st'.cache == st.cache
      && |r.error| == |errors| + |ps| - i && r.error[..|errors|] == errors
      && forall j :: i <= j < |ps| ==> r.error[|errors| + j - i].proxy == At(ps, st.index, j).name
    decreases |ps| - i
  {
    if i < |ps| {
      var p := ps[(st.index + i) % |ps|];
      assert At(ps, st.index, i) == p;
      var attempt := net(url, p);
      var st1 := if attempt.Thrown? then st.(health := CountFailure(st.health, p.name)) else st;
      var errs := errors + [if attempt.Thrown? then Failed(p.name, attempt.message) else Rejection(p.name, attempt.response)];
      assert TryFrom(st, ps, i, url, useCache, now, net, errors) == TryFrom(st1, ps, i + 1, url, useCache, now, net, errs);
      FailureReport(st1, ps, i + 1, url, useCache, now, net, errs);
      var r := TryFrom(st1, ps, i + 1, url, useCache, now, net, errs).1;
      assert r.error[..|errs|][..|errors|] == r.error[..|errors|];
      assert r.error[|errors|] == r.error[..|errs|][|errors|];
    }
  }

  /** On success the attempt loop stopped at the first accepting proxy: the
      index moves to it, its health is reset and stamped, the response is
      what it returned, and the cache takes the response only for a 2xx
      status with caching on. */
  lemma {:induction false} TryFromSucceeds(st: RelayState, ps: seq<Proxy>, i: nat, url: string, useCache: bool,
                                           now: int, net: (string, Proxy) -> Attempt, errors: seq<Reason>)
    requires ps != [] && i <= |ps|
    requires TryFrom(st, ps, i, url, useCache, now, net, errors).1.Ok?
    ensures var (st', r) := TryFrom(st, ps, i, url, useCache, now, net, errors);
      exists j :: (i <= j < |ps| && Accepts(net(url, At(ps, st.index, j)))
        && (forall j' :: i <= j' < j ==> !Accepts(net(url, At(ps, st.index, j'))))
        && st'.index == (st.index + j) % |ps|
        && r.value == net(url, At(ps, st.index, j)).response
        && At(ps, st.index, j).name in st'.health
        && st'.health[At(ps, st.index, j).name] == Health(0, now)
        && st'.cache == (if useCache && IsOk(r.value.status) then st.cache[url := CacheEntry(r.value, now)] else st.cache))
    decreases |ps| - i
  {
    var k := (st.index + i) % |ps|;
    var p := ps[k];
    match net(url, p)
    case Thrown(msg) =>
      var next := st.(health := CountFailure(st.health, p.name));
      TryFromSucceeds(next, ps, i + 1, url, useCache, now, net, errors + [Failed(p.name, msg)]);
    case Resp(resp) =>
      if Accepts(Resp(resp)) {
        assert At(ps, st.index, i) == p;
      } else {
        TryFromSucceeds(st, ps, i + 1, url, useCache, now, net, errors + [Rejection(p.name, resp)]);
      }
  }

  /** The failure count of `name`, zero when it has no record. */
  function FailuresOf(health: map<string, Health>, name: string): nat {
    if name in health then health[name].failures else 0
  }

  /** A proxy's failure count grows only through an attempt that threw. */
  lemma {:induction false} FailuresGrowOnlyOnThrow(st: RelayState, ps: seq<Proxy>, i: nat, url: string, useCache: bool,
                                                   now: int, net: (string, Proxy) -> Attempt, errors: seq<Reason>,
                                                   name: string)
    requires ps != [] && i <= |ps|
    requires FailuresOf(TryFrom(st, ps, i, url, useCache, now, net, errors).0.health, name) > FailuresOf(st.health, name)
    ensures exists j :: i <= j < |ps| && At(ps, st.index, j).name == name && net(url, At(ps, st.index, j)).Thrown?
    decreases |ps| - i
  {
    var k := (st.index + i) % |ps|;
    var p := ps[k];
    assert At(ps, st.index, i) == p;
    match net(url, p)
    case Thrown(msg) =>
      if p.name != name {
        var next := st.(health := CountFailure(st.health, p.name));
        assert FailuresOf(next.health, name) == FailuresOf(st.health, name);
        FailuresGrowOnlyOnThrow(next, ps, i + 1, url, useCache, now, net, errors + [Failed(p.name, msg)], name);
      }
    case Resp(resp) =>
      if !Accepts(Resp(resp)) {
        FailuresGrowOnlyOnThrow(st, ps, i + 1, url, useCache, now, net, errors + [Rejection(p.name, resp)], name);
      }
  }

  /** A proxy whose every attempt in this call produced a rejected response
      (bad status, short body) keeps its health record exactly as it was. */
  lemma {:induction false} RejectionsLeaveHealthAlone(st: RelayState, ps: seq<Proxy>, i: nat, url: string, useCache: bool,
                                                      now: int, net: (string, Proxy) -> Attempt, errors: seq<Reason>,
                                                      name: string)
    requires ps != [] && i <= |ps|
    requires forall j :: i <= j < |ps| && At(ps, st.index, j).name == name ==>
               net(url, At(ps, st.index, j)).Resp? && !Accepts(net(url, At(ps, st.index, j)))
    ensures var h' := TryFrom(st, ps, i, url, useCache, now, net, errors).0.health;
      (name in h' <==> name in st.health) && (name in st.health ==> h'[name] == st.health[name])
    decreases |ps| - i
  {
    if i < |ps| {
      var k := (st.index + i) % |ps|;
      var p := ps[k];
      assert At(ps, st.index, i) == p;
      match net(url, p)
      case Thrown(msg) =>
        var next := st.(health := CountFailure(st.health, p.name));
        RejectionsLeaveHealthAlone(next, ps, i + 1, url, useCache, now, net, errors + [Failed(p.name, msg)], name);
      case Resp(resp) =>
        if !Accepts(Resp(resp)) {
          RejectionsLeaveHealthAlone(st, ps, i + 1, url, useCache, now, net, errors + [Rejection(p.name, resp)], name);
        }
    }
  }

  /** A call that misses the cache fails iff none of the offered proxies
      accepts. */
  lemma FetchFailsIffNoProxyAccepts(st: RelayState, url: string, useCache: bool, now: int,
                                    net: (string, Proxy) -> Attempt)
    requires !CacheHit(st.cache, url, useCache, now)
    ensures var ps := ProxiesToTry(st.health, now);
      Fetch(st, url, useCache, now, net).1.Err? <==> forall j :: 0 <= j < |ps| ==> !Accepts(net(url, At(ps, st.index, j)))
  {
    var ps := ProxiesToTry(st.health, now);
    assert Fetch(st, url, useCache, now, net) == TryFrom(st, ps, 0, url, useCache, now, net, []);
    TryFromFails(st, ps, 0, url, useCache, now, net, []);
  }

  /** A failed call leaves the rotation index and the cache alone and
      reports every offered proxy, in rotation order. */
  lemma FetchFailureReport(st: RelayState, url: string, useCache: bool, now: int,
                           net: (string, Proxy) -> Attempt)
    requires Fetch(st, url, useCache, now, net).1.Err?
    ensures var ps := ProxiesToTry(st.health, now);
      var (st', r) := Fetch(st, url, useCache, now, net);
      st'.index == st.index && st'.cache == st.cache && |r.error| == |ps|
      && forall j :: 0 <= j < |ps| ==> r.error[j].proxy == At(ps, st.index, j).name
  {
    var ps := ProxiesToTry(st.health, now);
    assert Fetch(st, url, useCache, now, net) == TryFrom(st, ps, 0, url, useCache, now, net, []);
    FailureReport(st, ps, 0, url, useCache, now, net, []);
  }

  /** The proxies a call may try are distinct, and so are their names. */
  lemma ProxiesToTryDistinct(health: map<string, Health>, now: int)
    ensures var ps := ProxiesToTry(health, now);
      forall i, j :: 0 <= i < j < |ps| ==> ps[i].name != ps[j].name
  {
    var ps := ProxiesToTry(health, now);
    assert Distinct(CorsProxies);
    FilterKeepsDistinct(CorsProxies, p => Healthy(health, p, now));
    assert Distinct(ps);
    forall i, j | 0 <= i < j < |ps|
      ensures ps[i].name != ps[j].name
    {
      assert ps[i] in CorsProxies && ps[j] in CorsProxies;
    }
  }

  /** A failed call reports each proxy it tried once: the reasons name
      pairwise distinct proxies. */
  lemma FailureNamesDistinct(st: RelayState, url: string, useCache: bool, now: int,
                             net: (string, Proxy) -> Attempt)
    requires Fetch(st, url, useCache, now, net).1.Err?
    ensures var r := Fetch(st, url, useCache, now, net).1;
      forall j, k :: 0 <= j < k < |r.error| ==> r.error[j].proxy != r.error[k].proxy
  {
    var ps := ProxiesToTry(st.health, now);
    var r := Fetch(st, url, useCache, now, net).1;
    FetchFailureReport(st, url, useCache, now, net);
    ProxiesToTryDistinct(st.health, now);
    forall j, k | 0 <= j < k < |r.error|
      ensures r.error[j].proxy != r.error[k].proxy
    {
      RotationVisitsEachOnce(st.index, |ps|, j, k);
    }
  }

  /** A fresh cache entry answers the call and nothing changes. */
  lemma CacheHitChangesNothing(st: RelayState, url: string, useCache: bool, now: int, net: (string, Proxy) -> Attempt)
    requires CacheHit(st.cache, url, useCache, now)
    ensures Fetch(st, url, useCache, now, net) == (st, Ok(st.cache[url].data))
  {
  }

  /** Only accepted 2xx responses ever enter the cache. */
  lemma FetchKeepsCacheValid(st: RelayState, url: string, useCache: bool, now: int, net: (string, Proxy) -> Attempt)
    requires CacheValid(st.cache)
    ensures CacheValid(Fetch(st, url, useCache, now, net).0.cache)
  {
    if !CacheHit(st.cache, url, useCache, now) {
      TryFromKeepsCacheValid(st, ProxiesToTry(st.health, now), 0, url, useCache, now, net, []);
    }
  }

  /** Round trip through the cache: a 2xx response fetched with caching on
      is served again, unchanged and without touching any proxy, by every
      call for the same url in the following minute. */
  lemma CachedResponseIsServed(st: RelayState, url: string, now: int, net: (string, Proxy) -> Attempt,
                               later: int, net': (string, Proxy) -> Attempt)
    requires !CacheHit(st.cache, url, true, now)
    requires Fetch(st, url, true, now, net).1.Ok? && IsOk(Fetch(st, url, true, now, net).1.value.status)
    requires now <= later < now + CacheTtl
    ensures var (st', r) := Fetch(st, url, true, now, net);
      Fetch(st', url, true, later, net') == (st', r)
  {
    TryFromSucceeds(st, ProxiesToTry(st.health, now), 0, url, true, now, net, []);
  }

  /** With a consistent cache, `checkEndpointExists` reports existence
      exactly when the relay delivered a response. */
  lemma ProbeExistsIffDelivered(st: RelayState, url: string, now: int, net: (string, Proxy) -> Attempt)
    requires CacheValid(st.cache)
    ensures ProbeOne(st, url, now, net).1.exists_ <==> Fetch(st, url, true, now, net).1.Ok?
  {
    if !CacheHit(st.cache, url, true, now) && Fetch(st, url, true, now, net).1.Ok? {
      TryFromSucceeds(st, ProxiesToTry(st.health, now), 0, url, true, now, net, []);
    }
  }

  /** The batch result has an entry for every url and for nothing else. */
  lemma {:induction false} SweepKeys(st: RelayState, urls: seq<string>, step: (RelayState, string) -> (RelayState, ExistsResult))
    ensures Sweep(st, urls, step).1.Keys == set u | u in urls
  {
    if urls != [] {
      SweepKeys(st, urls[..|urls| - 1], step);
      assert urls == urls[..|urls| - 1] + [urls[|urls| - 1]];
    }
  }
}
