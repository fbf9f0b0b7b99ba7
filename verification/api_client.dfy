/** The request layer in front of the Câmara open-data API: a time-to-live cache
    (`SimpleCache`) and an HTTP client (`HttpClient`) that consults the cache before
    fetching, stores successful bodies and classifies failures. The clock is the
    parameter `now` (milliseconds) and the network is the parameter `outcome`. */
module ApiClient {
  import opened Js

  const DefaultTimeout: nat := 10000
  /** Five minutes, in milliseconds: the default time to live of a cache entry. */
  const CacheDuration: nat := 5 * 60 * 1000

  const TimeoutMessage := "Requisição expirou. Tente novamente."
  const ConnectionMessage := "Erro de conexão. Verifique sua internet."

  datatype CacheEntry<T> = CacheEntry(data: T, timestamp: int, expiry: int)

  type CacheMap<T> = map<string, CacheEntry<T>>

  // ---------------------------------------------------------------------
  // The cache, as operations on its map

  /** What `get` returns: the stored value while `now` has not passed its expiry. */
  function Lookup<T>(m: CacheMap<T>, key: string, now: int): Option<T> {
    if key in m && !(now > m[key].expiry) then Some(m[key].data) else None
  }

  /** The map after `get`: an entry found expired is deleted. */
  function AfterLookup<T>(m: CacheMap<T>, key: string, now: int): CacheMap<T> {
    if key in m && now > m[key].expiry then m - {key} else m
  }

  /** The duration `set` uses: the one given, or five minutes. */
  function EffectiveDuration(duration: Option<nat>): nat {
    if duration.Some? then duration.value else CacheDuration
  }

  /** The map after `set`. */
  function Stored<T>(m: CacheMap<T>, key: string, data: T, duration: Option<nat>, now: int): CacheMap<T> {
    m[key := CacheEntry(data, now, now + EffectiveDuration(duration))]
  }

  /** The entries that survive a `cleanup` at time `now`. */
  function Live<T>(m: CacheMap<T>, now: int): CacheMap<T> {
    map k | k in m && !(now > m[k].expiry) :: m[k]
  }

  /** After `set(k, v, d)` at time `now`, `get(k)` returns `v` at every time up to and including `now + d`. */
  lemma SetThenGet<T>(m: CacheMap<T>, key: string, v: T, duration: Option<nat>, now: int, t: int)
    requires t <= now + EffectiveDuration(duration)
    ensures Lookup(Stored(m, key, v, duration, now), key, t) == Some(v)
    ensures AfterLookup(Stored(m, key, v, duration, now), key, t) == Stored(m, key, v, duration, now)
  {
  }

  /** Once `now + d` has passed, the entry reads as absent and `get` deletes it. */
  lemma SetThenGetExpired<T>(m: CacheMap<T>, key: string, v: T, duration: Option<nat>, now: int, t: int)
    requires t > now + EffectiveDuration(duration)
    ensures Lookup(Stored(m, key, v, duration, now), key, t) == None
    ensures AfterLookup(Stored(m, key, v, duration, now), key, t) == m - {key}
  {
  }

  /** Without a duration the entry expires five minutes after it was stored. */
  lemma SetDefaultExpiry<T>(m: CacheMap<T>, key: string, v: T, now: int)
    ensures Stored(m, key, v, None, now)[key].expiry == now + 300000
  {
  }

  /** `set` and `get` touch only the entry of their own key. */
  lemma OtherKeysUntouched<T>(m: CacheMap<T>, key: string, other: string, v: T, duration: Option<nat>, now: int)
    requires other != key
    ensures other in Stored(m, key, v, duration, now) <==> other in m
    ensures other in m ==> Stored(m, key, v, duration, now)[other] == m[other]
    ensures other in AfterLookup(m, key, now) <==> other in m
    ensures other in m ==> AfterLookup(m, key, now)[other] == m[other]
  {
  }

  /** `cleanup` removes exactly the entries with `now > expiry` and leaves the others as they were. */
  lemma CleanupExact<T>(m: CacheMap<T>, now: int, k: string)
    ensures k in Live(m, now) <==> k in m && now <= m[k].expiry
    ensures k in Live(m, now) ==> Live(m, now)[k] == m[k]
  {
  }

  /** Deleting expired entries, lazily or by a sweep, is invisible to every later `get`. */
  lemma {:induction false} ExpiryIsInvisible<T>(m: CacheMap<T>, key: string, k: string, now: int, t: int)
    requires now <= t
    ensures Lookup(AfterLookup(m, key, now), k, t) == Lookup(m, k, t)
    ensures Lookup(Live(m, now), k, t) == Lookup(m, k, t)
  {
    if k in m && now > m[k].expiry {
      assert t > m[k].expiry;
    }
  }

  /** A time-to-live cache over a map from key to entry. */
  class SimpleCache<T> {
    var entries: CacheMap<T>

    constructor ()
      ensures entries == map[]
    {
      entries := map[];
    }

    /** `set(key, data, duration = 5 min)`: overwrite the entry of `key`. */
    method Set(key: string, data: T, duration: Option<nat>, now: int)
      modifies this
      ensures entries == Stored(old(entries), key, data, duration, now)
    {
      var d := if duration.Some? then duration.value else CacheDuration;
      entries := entries[key := CacheEntry(data, now, now + d)];
    }

    /** `get(key)`: the stored value while fresh; an expired entry is deleted. */
    method Get(key: string, now: int) returns (r: Option<T>)
      modifies this
      ensures r == Lookup(old(entries), key, now)
      ensures entries == AfterLookup(old(entries), key, now)
    {
      if key !in entries {
        return None;
      }
      var entry := entries[key];
      if now > entry.expiry {
        entries := entries - {key};
        return None;
      }
      return Some(entry.data);
    }

    /** `clear()`: drop every entry. */
    method Clear()
      modifies this
      ensures entries == map[]
    {
      entries := map[];
    }

    /** `cleanup()`: visit every entry and delete those past their expiry. */
    method Cleanup(now: int)
      modifies this
      ensures entries == Live(old(entries), now)
    {
      var pending := entries.Keys;
      while pending != {}
        invariant pending <= old(entries).Keys
        invariant forall k :: k in entries <==> k in old(entries) && (k in pending || !(now > old(entries)[k].expiry))
        invariant forall k :: k in entries ==> entries[k] == old(entries)[k]
        decreases pending
      {
        var k :| k in pending;
        if now > entries[k].expiry {
          entries := entries - {k};
        }
        pending := pending - {k};
      }
    }
  }

  // ---------------------------------------------------------------------
  // Requests

  /** What `fetch` did: answered with a status and a parsed body, or threw an error
      (`AbortError` when the timeout fired). */
  datatype FetchOutcome =
    | Response(status: int, statusText: string, body: Json)
    | Thrown(name: string, message: string)

  /** What `request` throws: the plain object built for a non-ok status, or an `Error`. */
  datatype ApiError =
    | StatusError(message: string, status: int, endpoint: string)
    | ErrorObject(name: string, message: string)

  predicate IsOk(status: int) {
    200 <= status <= 299
  }

  /** The body of a successful response, or the error `request` throws for this outcome. */
  function Classify(outcome: FetchOutcome, endpoint: string): (r: Result<Json, ApiError>)
    ensures outcome.Response? && IsOk(outcome.status) ==> r == Ok(outcome.body)
    ensures outcome.Response? && !IsOk(outcome.status) ==>
      r == Err(StatusError("HTTP " + IntToString(outcome.status) + ": " + outcome.statusText, outcome.status, endpoint))
    ensures outcome.Thrown? && outcome.name == "AbortError" ==> r == Err(ErrorObject("Error", TimeoutMessage))
    ensures outcome.Thrown? && outcome.name != "AbortError" && Includes(outcome.message, "fetch") ==>
      r == Err(ErrorObject("Error", ConnectionMessage))
    ensures outcome.Thrown? && outcome.name != "AbortError" && !Includes(outcome.message, "fetch") ==>
      r == Err(ErrorObject(outcome.name, outcome.message))
  {
    match outcome
    case Response(status, statusText, body) =>
      if IsOk(status) then Ok(body)
      else Err(StatusError("HTTP " + IntToString(status) + ": " + statusText, status, endpoint))
    case Thrown(name, message) =>
      if name == "AbortError" then Err(ErrorObject("Error", TimeoutMessage))
      else if Includes(message, "fetch") then Err(ErrorObject("Error", ConnectionMessage))
      else Err(ErrorObject(name, message))
  }

  /** The request options `get` passes on: `{method: 'GET', ...options}`. */
  datatype RequestOptions = RequestOptions(verb: string, enableCache: Option<bool>, cacheDuration: Option<nat>)

  /** `JSON.stringify(options)`; absent options are left out, as `JSON.stringify` leaves out `undefined`. */
  function Stringify(o: RequestOptions): string {
    OptionsHead(o.verb, o.enableCache) + DurationMember(o.cacheDuration) + "}"
  }

  function OptionsHead(verb: string, enableCache: Option<bool>): string {
    "{\"method\":\"" + verb + "\""
    + (match enableCache
       case None => ""
       case Some(b) => ",\"enableCache\":" + (if b then "true" else "false"))
  }

  function DurationMember(cacheDuration: Option<nat>): string {
    match cacheDuration
    case None => ""
    case Some(d) => ",\"cacheDuration\":" + NatToString(d)
  }

  /** The cache key: the URL followed by the serialised options. */
  function CacheKey(url: string, o: RequestOptions): string {
    url + Stringify(o)
  }

  /** Two requests that differ only in their cache duration use different cache entries. */
  lemma {:induction false} CacheKeySeparatesDurations(url: string, verb: string, enable: Option<bool>, d1: nat, d2: nat)
    requires d1 != d2
    ensures CacheKey(url, RequestOptions(verb, enable, Some(d1))) != CacheKey(url, RequestOptions(verb, enable, Some(d2)))
  {
    var p := url + OptionsHead(verb, enable) + ",\"cacheDuration\":";
    var x1, x2 := NatToString(d1) + "}", NatToString(d2) + "}";
    KeyParts(url, verb, enable, d1);
    KeyParts(url, verb, enable, d2);
    if p + x1 == p + x2 {
      assert (p + x1)[|p|..] == x1 && (p + x2)[|p|..] == x2;
      assert x1[..|x1| - 1] == NatToString(d1);
      assert x2[..|x2| - 1] == NatToString(d2);
      NatToStringInjective(d1, d2);
    }
  }

  lemma KeyParts(url: string, verb: string, enable: Option<bool>, d: nat)
    ensures CacheKey(url, RequestOptions(verb, enable, Some(d)))
         == (url + OptionsHead(verb, enable) + ",\"cacheDuration\":") + (NatToString(d) + "}")
  {
    var h, n := OptionsHead(verb, enable), NatToString(d);
    assert DurationMember(Some(d)) == ",\"cacheDuration\":" + n;
    assert Stringify(RequestOptions(verb, enable, Some(d))) == h + (",\"cacheDuration\":" + n) + "}";
  }

  /** What `request` does, given the cache before it, as (result, whether it fetched, cache after it).
      The cache is read at `now`; a fetched body is stored at `storedAt`, the later moment at which
      `set` reads the clock after the awaited fetch. */
  datatype RequestStep = RequestStep(result: Result<Json, ApiError>, fetched: bool, cache: CacheMap<Json>)

  function RequestSpec(m: CacheMap<Json>, key: string, endpoint: string, enableCache: bool,
                       cacheDuration: Option<nat>, now: int, storedAt: int, outcome: FetchOutcome): RequestStep
  {
    var cached := if enableCache then Lookup(m, key, now) else None;
    if cached.Some? && Truthy(cached.value) then RequestStep(Ok(cached.value), false, m)
    else
      var m1 := if enableCache then AfterLookup(m, key, now) else m;
      var r := Classify(outcome, endpoint);
      var m2 := if enableCache && r.Ok? then Stored(m1, key, r.value, cacheDuration, storedAt) else m1;
      RequestStep(r, true, m2)
  }

  /** A fresh, truthy cached body is returned without any request being made. */
  lemma CachedBodyServed(m: CacheMap<Json>, key: string, endpoint: string, d: Option<nat>, now: int, storedAt: int,
                         outcome: FetchOutcome)
    requires key in m && now <= m[key].expiry && Truthy(m[key].data)
    ensures RequestSpec(m, key, endpoint, true, d, now, storedAt, outcome) == RequestStep(Ok(m[key].data), false, m)
  {
  }

  /** A failed request is never cached: only the expired entry of its own key may disappear. */
  lemma {:induction false} FailureNotCached(m: CacheMap<Json>, key: string, endpoint: string, enable: bool,
                                            d: Option<nat>, now: int, storedAt: int, outcome: FetchOutcome)
    requires Classify(outcome, endpoint).Err?
    ensures var s := RequestSpec(m, key, endpoint, enable, d, now, storedAt, outcome);
            s.result.Err? ==> s.cache.Keys <= m.Keys && forall k :: k in s.cache ==> s.cache[k] == m[k]
    ensures var s := RequestSpec(m, key, endpoint, enable, d, now, storedAt, outcome);
            s.result.Err? ==> s.fetched && s.result == Classify(outcome, endpoint)
  {
  }

  /** Without caching the cache is left alone and the network is always asked. */
  lemma UncachedRequest(m: CacheMap<Json>, key: string, endpoint: string, d: Option<nat>, now: int, storedAt: int,
                        outcome: FetchOutcome)
    ensures RequestSpec(m, key, endpoint, false, d, now, storedAt, outcome) == RequestStep(Classify(outcome, endpoint), true, m)
  {
  }

  /** A successful, truthy body fetched with caching on is served from the cache by the
      same request made at any time up to its expiry, which counts from when it was stored. */
  lemma {:induction false} SuccessThenHit(m: CacheMap<Json>, key: string, endpoint: string, d: Option<nat>,
                                          now: int, storedAt: int, t: int, t2: int,
                                          outcome: FetchOutcome, outcome2: FetchOutcome)
    requires outcome.Response? && IsOk(outcome.status) && Truthy(outcome.body)
    requires Lookup(m, key, now) == None
    requires now <= storedAt && storedAt <= t <= storedAt + EffectiveDuration(d)
    ensures var s := RequestSpec(m, key, endpoint, true, d, now, storedAt, outcome);
            && s.cache[key].expiry == storedAt + EffectiveDuration(d)
            && RequestSpec(s.cache, key, endpoint, true, d, t, t2, outcome2) == RequestStep(Ok(outcome.body), false, s.cache)
  {
    var s := RequestSpec(m, key, endpoint, true, d, now, storedAt, outcome);
    assert s.cache == Stored(AfterLookup(m, key, now), key, outcome.body, d, storedAt);
    SetThenGet(AfterLookup(m, key, now), key, outcome.body, d, storedAt, t);
  }

  // ---------------------------------------------------------------------
  // Query strings

  datatype Scalar = Str(s: string) | Num(n: int)

  /** `String(value)`. */
  function ScalarText(v: Scalar): string {
    match v
    case Str(s) => s
    case Num(n) => IntToString(n)
  }

  /** The pairs `get` appends: those whose value is neither `undefined` nor `null`, in the given order. */
  function KeptParams(params: seq<(string, Nullable<Scalar>)>): (r: seq<(string, string)>)
    ensures |r| <= |params|
  {
    if params == [] then []
    else
      var rest := KeptParams(params[1..]);
      if params[0].1.Value? then [(params[0].0, ScalarText(params[0].1.v))] + rest else rest
  }

  /** `URLSearchParams.toString()`: `key=value` pairs joined by `&` (percent-encoding is not modelled). */
  function QueryString(pairs: seq<(string, string)>): (r: string)
    ensures pairs == [] <==> r == ""
  {
    if pairs == [] then ""
    else if |pairs| == 1 then pairs[0].0 + "=" + pairs[0].1
    else pairs[0].0 + "=" + pairs[0].1 + "&" + QueryString(pairs[1..])
  }

  /** The URL `get` requests. */
  function BuildUrl(endpoint: string, params: Option<seq<(string, Nullable<Scalar>)>>): (r: string)
    ensures |endpoint| <= |r| && r[..|endpoint|] == endpoint
    ensures r == endpoint <==> params.None? || KeptParams(params.value) == []
    ensures r != endpoint ==> r[|endpoint|..] == "?" + QueryString(KeptParams(params.value))
  {
    if params.None? then endpoint
    else
      var q := QueryString(KeptParams(params.value));
      if q == "" then endpoint else endpoint + "?" + q
  }

  /** Every present pair is sent and no `undefined` or `null` one is; the key of every pair sent comes from `params`. */
  lemma {:induction false} KeptParamsExact(params: seq<(string, Nullable<Scalar>)>)
    ensures forall i :: 0 <= i < |params| && params[i].1.Value? ==>
              (params[i].0, ScalarText(params[i].1.v)) in KeptParams(params)
    ensures forall p :: p in KeptParams(params) ==>
              exists i :: 0 <= i < |params| && params[i].1.Value? && p == (params[i].0, ScalarText(params[i].1.v))
    ensures (forall i :: 0 <= i < |params| ==> !params[i].1.Value?) <==> KeptParams(params) == []
  {
    if params != [] {
      KeptParamsExact(params[1..]);
      var rest := KeptParams(params[1..]);
      forall i | 0 <= i < |params| && params[i].1.Value?
        ensures (params[i].0, ScalarText(params[i].1.v)) in KeptParams(params)
      {
        if i > 0 {
          assert params[1..][i - 1] == params[i];
        }
      }
      forall p | p in KeptParams(params)
        ensures exists i :: 0 <= i < |params| && params[i].1.Value? && p == (params[i].0, ScalarText(params[i].1.v))
      {
        if p in rest {
          var j :| 0 <= j < |params[1..]| && params[1..][j].1.Value? && p == (params[1..][j].0, ScalarText(params[1..][j].1.v));
          assert params[j + 1] == params[1..][j];
        }
      }
      if forall i :: 0 <= i < |params| ==> !params[i].1.Value? {
        assert forall i :: 0 <= i < |params[1..]| ==> params[1..][i] == params[i + 1];
      }
      if KeptParams(params) == [] {
        assert !params[0].1.Value?;
        forall i | 0 <= i < |params|
          ensures !params[i].1.Value?
        {
          if i > 0 {
            assert params[1..][i - 1] == params[i];
          }
        }
      }
    }
  }

  /** A key whose every value is `undefined` or `null` is not sent. */
  lemma {:induction false} KeptParamsOmit(params: seq<(string, Nullable<Scalar>)>, k: string)
    requires forall i :: 0 <= i < |params| && params[i].0 == k ==> !params[i].1.Value?
    ensures forall i :: 0 <= i < |KeptParams(params)| ==> KeptParams(params)[i].0 != k
  {
    if params != [] {
      assert forall i :: 0 <= i < |params[1..]| ==> params[1..][i] == params[i + 1];
      KeptParamsOmit(params[1..], k);
    }
  }

  /** When every value is present, each pair is sent, in order. */
  lemma {:induction false} KeptParamsAllPresent(params: seq<(string, Nullable<Scalar>)>)
    requires forall i :: 0 <= i < |params| ==> params[i].1.Value?
    ensures |KeptParams(params)| == |params|
    ensures forall i :: 0 <= i < |params| ==> KeptParams(params)[i] == (params[i].0, ScalarText(params[i].1.v))
  {
    if params != [] {
      assert forall i :: 0 <= i < |params[1..]| ==> params[1..][i] == params[i + 1];
      KeptParamsAllPresent(params[1..]);
    }
  }

  /** With no parameter left to send, the URL is the bare endpoint, without `?`. */
  lemma {:induction false} BareEndpoint(endpoint: string, params: seq<(string, Nullable<Scalar>)>)
    ensures (forall i :: 0 <= i < |params| ==> !params[i].1.Value?) <==> BuildUrl(endpoint, Some(params)) == endpoint
  {
    KeptParamsExact(params);
    var q := QueryString(KeptParams(params));
    if q != "" {
      assert |endpoint + "?" + q| > |endpoint|;
    }
  }

  /** `get`'s loop: append each pair whose value is not `undefined` or `null`. */
  method AppendParams(params: seq<(string, Nullable<Scalar>)>) returns (pairs: seq<(string, string)>)
    ensures pairs == KeptParams(params)
  {
    pairs := [];
    var i := 0;
    while i < |params|
      invariant 0 <= i <= |params|
      invariant pairs + KeptParams(params[i..]) == KeptParams(params)
    {
      assert params[i..][1..] == params[i + 1..];
      if params[i].1.Value? {
        pairs := pairs + [(params[i].0, ScalarText(params[i].1.v))];
      }
      i := i + 1;
    }
    assert params[|params|..] == [];
  }

  /** The options `get` gives `request`. */
  datatype GetOptions = GetOptions(enableCache: Option<bool>, cacheDuration: Option<nat>)

  /** The HTTP client. The cache is the module-wide one the source shares, passed in here. */
  class HttpClient {
    const baseUrl: string
    const timeout: nat
    const cache: SimpleCache<Json>

    constructor (baseUrl: string, timeout: nat, cache: SimpleCache<Json>)
      ensures this.baseUrl == baseUrl && this.timeout == timeout && this.cache == cache
    {
      this.baseUrl := baseUrl;
      this.timeout := timeout;
      this.cache := cache;
    }

    /** `request(endpoint, options, enableCache, cacheDuration)`: consult the cache, then fetch. */
    method Request(endpoint: string, options: RequestOptions, enableCache: bool, cacheDuration: Option<nat>,
                   now: int, storedAt: int, outcome: FetchOutcome) returns (r: Result<Json, ApiError>, fetched: bool)
      requires now <= storedAt
      modifies cache
      ensures var s := RequestSpec(old(cache.entries), CacheKey(baseUrl + endpoint, options), endpoint,
                                   enableCache, cacheDuration, now, storedAt, outcome);
              r == s.result && fetched == s.fetched && cache.entries == s.cache
    {
      var url := baseUrl + endpoint;
      var key := url + Stringify(options);
      if enableCache {
        var cached := cache.Get(key, now);
        if cached.Some? && Truthy(cached.value) {
          return Ok(cached.value), false;
        }
      }
      fetched := true;
      r := Classify(outcome, endpoint);
      if r.Ok? && enableCache {
        cache.Set(key, r.value, cacheDuration, storedAt);
      }
    }

    /** `get(endpoint, params, options)`: build the query string, then `request` with `{method: 'GET', ...options}`. */
    method Get(endpoint: string, params: Option<seq<(string, Nullable<Scalar>)>>, options: GetOptions,
               now: int, storedAt: int, outcome: FetchOutcome) returns (r: Result<Json, ApiError>, fetched: bool)
      requires now <= storedAt
      modifies cache
      ensures var url := BuildUrl(endpoint, params);
              var s := RequestSpec(old(cache.entries),
                                   CacheKey(baseUrl + url, RequestOptions("GET", options.enableCache, options.cacheDuration)),
                                   url, options.enableCache == Some(true), options.cacheDuration, now, storedAt, outcome);
              r == s.result && fetched == s.fetched && cache.entries == s.cache
    {
      var url := endpoint;
      if params.Some? {
        var pairs := AppendParams(params.value);
        var queryString := QueryString(pairs);
        url := if queryString != "" then endpoint + "?" + queryString else endpoint;
      }
      r, fetched := Request(url, RequestOptions("GET", options.enableCache, options.cacheDuration),
                            options.enableCache == Some(true), options.cacheDuration, now, storedAt, outcome);
    }

    /** `clearCache()`. */
    method ClearCache()
      modifies cache
      ensures cache.entries == map[]
    {
      cache.Clear();
    }

    /** `cleanupCache()`: the sweep the source runs every five minutes. */
    method CleanupCache(now: int)
      modifies cache
      ensures cache.entries == Live(old(cache.entries), now)
    {
      cache.Cleanup(now);
    }
  }
}
