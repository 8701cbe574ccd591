/**
 * The vehicle data service (src/services/vehicleDataService.js): a
 * bounded retry loop around one unreliable HTTP call, the two
 * classifications of the error it throws, and the cache-first lookups of
 * a vehicle and of a disability permit.
 *
 * The HTTP client is an oracle: the n-th call of a request returns
 * `outcomes[n - 1]`.  `_delay` is recorded as the list of waits.
 */
module Fetcher {
  import opened Text
  import opened Events
  import Vehicles
  import Caching
  import Validation
  import Errors

  /** One record of `response.data.result.records`. */
  type Record = map<string, Vehicles.ApiValue>

  /**
   * A thrown error as the service reads it: its `message`, its `code`
   * (`''` when absent) and `response.status` when it carries a response.
   */
  datatype Failure = Failure(message: string, code: string, status: Option<int>)

  /** What one `httpClient.get` does: resolve with a body whose `success` is truthy or not, or reject. */
  datatype Outcome =
    | Response(success: bool, records: seq<Record>)
    | Failed(failure: Failure)

  /** `new Error('API_INVALID_RESPONSE')`: no code and no response. */
  const InvalidResponse := Failure("API_INVALID_RESPONSE", "", None)

  const DefaultMaxRetries := 3
  const CacheTtl := 300000
  const CacheMaxSize := 500

  predicate IsTimeoutCode(code: string) {
    code == "ECONNABORTED" || code == "ETIMEDOUT"
  }

  /** `_isRetryableError`: a timeout code, or a response with status 5xx or 429. */
  predicate IsRetryable(f: Failure) {
    if IsTimeoutCode(f.code) then true
    else if f.status.Some? then f.status.value >= 500 || f.status.value == 429
    else false
  }

  /** `_classifyError`: the `type` given to the error that is finally thrown. */
  function Classify(f: Failure): (t: string)
    ensures t in Errors.KnownTypes || t == "API_ERROR"
    ensures t != "API_INVALID_RESPONSE"
  {
    if IsTimeoutCode(f.code) then "NETWORK_TIMEOUT"
    else if IsConnectionCode(f.code) then "NETWORK_ERROR"
    else if f.status.Some? then
      var status := f.status.value;
      if status == 429 then "RATE_LIMIT_EXCEEDED"
      else if status >= 500 then "API_SERVER_ERROR"
      else if status == 404 then "API_NOT_FOUND"
      else "API_ERROR"
    else "UNKNOWN_ERROR"
  }

  predicate IsConnectionCode(code: string) {
    code == "ENOTFOUND" || code == "ECONNREFUSED"
  }

  /**
   * Which failures receive each type: a timeout code, then a DNS or
   * refused-connection code, then the response status (429, 5xx, 404, any
   * other), and `UNKNOWN_ERROR` for a failure with neither code nor response.
   */
  lemma ClassifyExactly(f: Failure)
    ensures Classify(f) == "NETWORK_TIMEOUT" <==> IsTimeoutCode(f.code)
    ensures Classify(f) == "NETWORK_ERROR" <==> IsConnectionCode(f.code)
    ensures var byStatus := !IsTimeoutCode(f.code) && !IsConnectionCode(f.code) && f.status.Some?;
      && (Classify(f) == "RATE_LIMIT_EXCEEDED" <==> byStatus && f.status.value == 429)
      && (Classify(f) == "API_SERVER_ERROR" <==> byStatus && f.status.value >= 500)
      && (Classify(f) == "API_NOT_FOUND" <==> byStatus && f.status.value == 404)
      && (Classify(f) == "API_ERROR" <==> byStatus && f.status.value < 500 && f.status.value != 429 && f.status.value != 404)
    ensures Classify(f) == "UNKNOWN_ERROR" <==> !IsTimeoutCode(f.code) && !IsConnectionCode(f.code) && f.status.None?
  {
  }

  /**
   * Apart from the DNS and refused-connection codes, a failure is retried
   * exactly when `_classifyError` gives it a timeout, rate-limit or server type.
   */
  lemma RetryableByType(f: Failure)
    ensures !IsConnectionCode(f.code) ==>
      (IsRetryable(f) <==> Classify(f) in {"NETWORK_TIMEOUT", "RATE_LIMIT_EXCEEDED", "API_SERVER_ERROR"})
    ensures IsConnectionCode(f.code) ==>
      (IsRetryable(f) <==> f.status.Some? && (f.status.value >= 500 || f.status.value == 429))
  {
  }

  /**
   * The two classifications agree with the error table: apart from the
   * DNS and refused-connection codes, the service retries a failure
   * exactly when the table calls its type retryable.  Those two codes
   * are classified as the retryable `NETWORK_ERROR`, yet are retried only
   * when their response status is; the invalid-response error is neither
   * retried nor given its own retryable type.
   */
  lemma RetryableAgreesWithTable(f: Failure)
    ensures f.code != "ENOTFOUND" && f.code != "ECONNREFUSED" ==>
      (IsRetryable(f) <==> Errors.IsRetryableError(Classify(f)))
    ensures f.code == "ENOTFOUND" || f.code == "ECONNREFUSED" ==>
      Classify(f) == "NETWORK_ERROR" && Errors.IsRetryableError(Classify(f))
      && (IsRetryable(f) <==> f.status.Some? && (f.status.value >= 500 || f.status.value == 429))
    ensures !IsRetryable(InvalidResponse) && Classify(InvalidResponse) == "UNKNOWN_ERROR"
    ensures Errors.IsRetryableError("API_INVALID_RESPONSE")
    ensures "API_ERROR" !in Errors.KnownTypes && Errors.GetErrorInfo("API_ERROR") == Errors.GetErrorInfo("UNKNOWN_ERROR")
  {
  }

  /** What the try block of `_makeApiRequest` produces on one call: the records, or the error it throws. */
  datatype Reply = Records(records: seq<Record>) | Thrown(failure: Failure)

  function Call(o: Outcome): (r: Reply)
    ensures r.Thrown? <==> o.Failed? || !o.success
    ensures o.Response? && !o.success ==> r == Thrown(InvalidResponse)
  {
    match o
    case Response(success, records) => if success then Records(records) else Thrown(InvalidResponse)
    case Failed(f) => Thrown(f)
  }

  /** The end of a request: the records, or the last error together with the type `_classifyError` gave it. */
  datatype ApiResult = Ok(records: seq<Record>) | Err(failure: Failure, errType: string)

  /** A whole request: its result, how many calls it made and the waits between them. */
  datatype Run = Run(result: ApiResult, calls: nat, waits: seq<int>)

  /**
   * `_makeApiRequest(params, attempt)`: call; on an error, wait
   * `1000 * attempt` and go on with `attempt + 1` while
   * `attempt < maxRetries` and the error is retryable; otherwise classify
   * and throw.  The oracle supplies an outcome for every call.
   */
  function Request(outcomes: seq<Outcome>, maxRetries: int, attempt: nat): (run: Run)
    requires 1 <= attempt <= |outcomes| && maxRetries <= |outcomes|
    decreases |outcomes| - attempt
    ensures attempt <= run.calls <= (if attempt < maxRetries then maxRetries else attempt)
    ensures |run.waits| == run.calls - attempt
    ensures forall i | 0 <= i < |run.waits| :: run.waits[i] == 1000 * (attempt + i)
    ensures forall n | attempt - 1 <= n < run.calls - 1 :: Call(outcomes[n]).Thrown? && IsRetryable(Call(outcomes[n]).failure)
    ensures run.result.Ok? ==> Call(outcomes[run.calls - 1]) == Records(run.result.records)
    ensures run.result.Err? ==>
      && Call(outcomes[run.calls - 1]) == Thrown(run.result.failure)
      && run.result.errType == Classify(run.result.failure)
      && (run.calls >= maxRetries || !IsRetryable(run.result.failure))
  {
    match Call(outcomes[attempt - 1])
    case Records(records) => Run(Ok(records), attempt, [])
    case Thrown(f) =>
      if attempt < maxRetries && IsRetryable(f) then
        var rest := Request(outcomes, maxRetries, attempt + 1);
        rest.(waits := [1000 * attempt] + rest.waits)
      else Run(Err(f, Classify(f)), attempt, [])
  }

  /** The request loop of `_makeApiRequest`, its recursion unrolled. */
  method MakeApiRequest(outcomes: seq<Outcome>, maxRetries: int) returns (run: Run)
    requires 1 <= |outcomes| && maxRetries <= |outcomes|
    ensures run == Request(outcomes, maxRetries, 1)
  {
    var attempt := 1;
    var waits: seq<int> := [];
    while true
      invariant 1 <= attempt <= |outcomes|
      invariant Request(outcomes, maxRetries, 1) ==
        Request(outcomes, maxRetries, attempt).(waits := waits + Request(outcomes, maxRetries, attempt).waits)
      decreases |outcomes| - attempt
    {
      match Call(outcomes[attempt - 1]) {
        case Records(records) =>
          return Run(Ok(records), attempt, waits);
        case Thrown(f) =>
          if attempt < maxRetries && IsRetryable(f) {
            ghost var rest := Request(outcomes, maxRetries, attempt + 1);
            assert waits + ([1000 * attempt] + rest.waits) == (waits + [1000 * attempt]) + rest.waits;
            waits := waits + [1000 * attempt];
            attempt := attempt + 1;
          } else {
            return Run(Err(f, Classify(f)), attempt, waits);
          }
      }
    }
  }

  /** A response without `success` is thrown at once and never retried, and its type is `UNKNOWN_ERROR`. */
  lemma InvalidResponseNotRetried(outcomes: seq<Outcome>, maxRetries: int, records: seq<Record>)
    requires 1 <= |outcomes| && maxRetries <= |outcomes|
    requires outcomes[0] == Response(false, records)
    ensures Request(outcomes, maxRetries, 1) == Run(Err(InvalidResponse, "UNKNOWN_ERROR"), 1, [])
  {
  }

  /** A failure that is not retryable, such as status 400, makes exactly one call. */
  lemma NonRetryableOnce(outcomes: seq<Outcome>, maxRetries: int, f: Failure)
    requires 1 <= |outcomes| && maxRetries <= |outcomes|
    requires outcomes[0] == Failed(f) && !IsRetryable(f)
    ensures Request(outcomes, maxRetries, 1) == Run(Err(f, Classify(f)), 1, [])
  {
  }

  /**
   * When every call fails retryably, the request makes `maxRetries`
   * calls (at least one), waits 1000, 2000, ... ms between them and
   * throws the last failure.
   */
  lemma {:induction false} RetriesExhausted(outcomes: seq<Outcome>, maxRetries: int, attempt: nat)
    requires 1 <= attempt <= |outcomes| && maxRetries <= |outcomes|
    requires forall n | 0 <= n < |outcomes| :: outcomes[n].Failed? && IsRetryable(outcomes[n].failure)
    decreases |outcomes| - attempt
    ensures var run := Request(outcomes, maxRetries, attempt);
      && run.calls == (if attempt < maxRetries then maxRetries else attempt)
      && run.result == Err(outcomes[run.calls - 1].failure, Classify(outcomes[run.calls - 1].failure))
  {
    if attempt < maxRetries {
      RetriesExhausted(outcomes, maxRetries, attempt + 1);
    }
  }

  // ---------------------------------------------------------------------
  // Cache-first lookups
  // ---------------------------------------------------------------------

  /** What the service's cache holds: a `VehicleData`, `null`, or a permit flag. */
  datatype Cached = VehicleResult(vehicle: Vehicles.VehicleData) | NoVehicle | Permit(has: bool)

  /** JavaScript truthiness of a cached value. */
  predicate CachedTruthy(c: Cached) {
    c.VehicleResult? || (c.Permit? && c.has)
  }

  /** `null`, or a `VehicleData` made from the first record. */
  function FirstVehicle(records: seq<Record>): (v: Option<Vehicles.VehicleData>)
    ensures v.Some? <==> records != []
    ensures v.Some? ==> v.value == Vehicles.FromApi(records[0])
  {
    if |records| > 0 then Some(Vehicles.FromApi(records[0])) else None
  }

  function AsCached(v: Option<Vehicles.VehicleData>): Cached {
    if v.Some? then VehicleResult(v.value) else NoVehicle
  }

  /** The outcome of `searchVehicle`: a vehicle or `null`, or an error with its `type`. */
  datatype Search = Found(vehicle: Option<Vehicles.VehicleData>) | Threw(errType: string)

  /** A vehicle key holds a vehicle or `null`, a permit key holds a flag. */
  ghost predicate KeysTyped(entries: map<string, Caching.Entry<Cached>>) {
    forall k | k in entries ::
      && ("vehicle:" <= k ==> !entries[k].value.Permit?)
      && ("disability:" <= k ==> entries[k].value.Permit?)
  }

  /** The two key families are told apart by their prefixes. */
  lemma KeyPrefixes(plate: string)
    ensures "vehicle:" <= Caching.VehicleKey(plate) && !("disability:" <= Caching.VehicleKey(plate))
    ensures "disability:" <= Caching.DisabilityKey(plate) && !("vehicle:" <= Caching.DisabilityKey(plate))
  {
    assert Caching.VehicleKey(plate)[0] == 'v';
    assert Caching.DisabilityKey(plate)[0] == 'd';
  }

  /** Removing entries keeps the keys typed. */
  lemma KeysTypedRemove(entries: map<string, Caching.Entry<Cached>>, gone: set<string>)
    requires KeysTyped(entries)
    ensures KeysTyped(entries - gone)
  {
  }

  /** Storing a vehicle result under a vehicle key, or a flag under a permit key, keeps the keys typed. */
  lemma KeysTypedStore(entries: map<string, Caching.Entry<Cached>>, key: string, e: Caching.Entry<Cached>)
    requires KeysTyped(entries)
    requires ("vehicle:" <= key ==> !e.value.Permit?) && ("disability:" <= key ==> e.value.Permit?)
    ensures KeysTyped(entries[key := e])
  {
  }

  /** A subset is no larger. */
  lemma SubsetCard<T>(a: set<T>, b: set<T>)
    requires a <= b
    ensures |a| <= |b|
  {
    assert b == a + (b - a);
  }

  class VehicleDataService {
    /** `parseInt(API_RETRY_ATTEMPTS) || 3`. */
    const maxRetries: int
    const cache: Caching.SimpleCache<Cached>

    ghost predicate Valid()
      reads this, cache
    {
      cache.Valid() && cache.ttl == CacheTtl && KeysTyped(cache.entries)
    }

    /** `retryOption` is the parsed setting, 0 standing for a missing or falsy one. */
    constructor(retryOption: int)
      ensures Valid() && fresh(cache)
      ensures maxRetries == (if retryOption != 0 then retryOption else DefaultMaxRetries)
      ensures cache.entries == map[] && cache.maxSize == CacheMaxSize
    {
      maxRetries := if retryOption != 0 then retryOption else DefaultMaxRetries;
      cache := new Caching.SimpleCache(CacheTtl, CacheMaxSize);
    }

    /** `cache.get` on the service's cache, which keeps its keys typed. */
    method GetCached(key: string, now: int) returns (cached: Option<Cached>)
      requires Valid()
      modifies cache
      ensures Valid()
      ensures cached == Caching.Lookup(old(cache.entries), key, now)
      ensures Caching.SameOutside(old(cache.entries), cache.entries, {key})
      ensures Caching.KeptOutside(old(cache.entries), cache.entries, {key})
      ensures cache.entries.Keys <= old(cache.entries).Keys
    {
      ghost var before := cache.entries;
      cached := cache.Get(key, now);
      if key in before && Caching.Expired(before[key], now) {
        KeysTypedRemove(before, {key});
      } else if key in before {
        KeysTypedStore(before, key, cache.entries[key]);
      }
    }

    /** `cache.set(key, value)` with the default time to live, for a value of the key's family. */
    method PutCached(key: string, value: Cached, now: int)
      requires Valid()
      requires ("vehicle:" <= key ==> !value.Permit?) && ("disability:" <= key ==> value.Permit?)
      modifies cache
      ensures Valid()
      ensures key in cache.entries && cache.entries[key] == Caching.Entry(value, now, now + CacheTtl, 0)
      ensures Caching.SameOutside(old(cache.entries), cache.entries, {key})
      ensures |old(cache.entries)| < cache.maxSize ==> Caching.KeptOutside(old(cache.entries), cache.entries, {key})
    {
      ghost var before := cache.entries;
      ghost var victim := cache.Set(key, value, 0, now);
      KeysTypedRemove(before, Caching.Evicted(victim));
      KeysTypedStore(before - Caching.Evicted(victim), key, Caching.Entry(value, now, now + CacheTtl, 0));
    }

    /**
     * `searchVehicle`: validate (an error carries the validator's code and
     * nothing else happens), then a truthy cached value is returned,
     * otherwise the API is asked and its answer, `null` included, is
     * cached for the default time.
     */
    method SearchVehicle(plate: JsField, now: int, outcomes: seq<Outcome>) returns (r: Search, calls: nat)
      requires Valid() && 1 <= |outcomes| && maxRetries <= |outcomes|
      modifies cache
      ensures Valid()
      ensures var v := Validation.ValidateLicensePlate(plate);
        v.Rejected? ==> r == Threw(v.error) && calls == 0 && unchanged(cache)
      ensures var v := Validation.ValidateLicensePlate(plate);
        v.Accepted? ==>
          var key := Caching.VehicleKey(v.value.cleaned);
          var hit := Caching.Lookup(old(cache.entries), key, now);
          var run := Request(outcomes, maxRetries, 1);
          && (hit.Some? && hit.value.VehicleResult? ==> r == Found(Some(hit.value.vehicle)) && calls == 0)
          && (!(hit.Some? && hit.value.VehicleResult?) ==>
                && calls == run.calls && 1 <= calls
                && (run.result.Err? ==> r == Threw(run.result.errType))
                && (run.result.Ok? ==>
                      && r == Found(FirstVehicle(run.result.records))
                      && key in cache.entries
                      && cache.entries[key] == Caching.Entry(AsCached(r.vehicle), now, now + CacheTtl, 0)))
          && Caching.SameOutside(old(cache.entries), cache.entries, {key})
          && ((hit.Some? && hit.value.VehicleResult?) || |old(cache.entries)| < cache.maxSize ==>
                Caching.KeptOutside(old(cache.entries), cache.entries, {key}))
    {
      var v := Validation.ValidateLicensePlate(plate);
      if v.Rejected? {
        return Threw(v.error), 0;
      }
      KeyPrefixes(v.value.cleaned);
      r, calls := SearchByKey(Caching.VehicleKey(v.value.cleaned), now, outcomes);
    }

    /** `searchVehicle` after validation, on the plate's vehicle key. */
    method SearchByKey(key: string, now: int, outcomes: seq<Outcome>) returns (r: Search, calls: nat)
      requires Valid() && 1 <= |outcomes| && maxRetries <= |outcomes|
      requires "vehicle:" <= key && !("disability:" <= key)
      modifies cache
      ensures Valid()
      ensures var hit := Caching.Lookup(old(cache.entries), key, now);
        var run := Request(outcomes, maxRetries, 1);
        && (hit.Some? && hit.value.VehicleResult? ==> r == Found(Some(hit.value.vehicle)) && calls == 0)
        && (!(hit.Some? && hit.value.VehicleResult?) ==>
              && calls == run.calls && 1 <= calls
              && (run.result.Err? ==> r == Threw(run.result.errType))
              && (run.result.Ok? ==>
                    && r == Found(FirstVehicle(run.result.records))
                    && key in cache.entries
                    && cache.entries[key] == Caching.Entry(AsCached(r.vehicle), now, now + CacheTtl, 0)))
      ensures Caching.SameOutside(old(cache.entries), cache.entries, {key})
      ensures var hit := Caching.Lookup(old(cache.entries), key, now);
        (hit.Some? && hit.value.VehicleResult?) || |old(cache.entries)| < cache.maxSize ==>
          Caching.KeptOutside(old(cache.entries), cache.entries, {key})
    {
      var cached := GetCached(key, now);
      if cached.Some? && CachedTruthy(cached.value) {
        if cached.value.VehicleResult? {
          return Found(Some(cached.value.vehicle)), 0;
        }
        assert false;
      }
      ghost var between := cache.entries;
      SubsetCard(between.Keys, old(cache.entries).Keys);
      r, calls := FetchVehicle(key, now, outcomes);
      Caching.OutsideTrans(old(cache.entries), between, cache.entries, {key}, {key});
      assert {key} + {key} == {key};
    }

    /**
     * The miss path of `searchVehicle`: ask the API and cache its answer,
     * `null` included, under the vehicle key; a failed request throws.
     */
    method FetchVehicle(key: string, now: int, outcomes: seq<Outcome>) returns (r: Search, calls: nat)
      requires Valid() && 1 <= |outcomes| && maxRetries <= |outcomes|
      requires "vehicle:" <= key && !("disability:" <= key)
      modifies cache
      ensures Valid()
      ensures var run := Request(outcomes, maxRetries, 1);
        && calls == run.calls && 1 <= calls
        && (run.result.Err? ==> r == Threw(run.result.errType) && unchanged(cache))
        && (run.result.Ok? ==>
              && r == Found(FirstVehicle(run.result.records))
              && key in cache.entries
              && cache.entries[key] == Caching.Entry(AsCached(r.vehicle), now, now + CacheTtl, 0))
      ensures Caching.SameOutside(old(cache.entries), cache.entries, {key})
      ensures |old(cache.entries)| < cache.maxSize ==> Caching.KeptOutside(old(cache.entries), cache.entries, {key})
    {
      var run := MakeApiRequest(outcomes, maxRetries);
      calls := run.calls;
      if run.result.Err? {
        return Threw(run.result.errType), calls;
      }
      var result := FirstVehicle(run.result.records);
      PutCached(key, AsCached(result), now);
      r := Found(result);
    }

    /**
     * `checkDisabilityPermit`: never throws; an invalid plate or a failed
     * request gives `false`, any cached flag (`false` included) is
     * returned as it is, otherwise the flag "some record came back" is
     * cached and returned.
     */
    method CheckDisabilityPermit(plate: JsField, now: int, outcomes: seq<Outcome>) returns (hasPermit: bool, calls: nat)
      requires Valid() && 1 <= |outcomes| && maxRetries <= |outcomes|
      modifies cache
      ensures Valid()
      ensures var v := Validation.ValidateLicensePlate(plate);
        v.Rejected? ==> !hasPermit && calls == 0 && unchanged(cache)
      ensures var v := Validation.ValidateLicensePlate(plate);
        v.Accepted? ==>
          var key := Caching.DisabilityKey(v.value.cleaned);
          var hit := Caching.Lookup(old(cache.entries), key, now);
          var run := Request(outcomes, maxRetries, 1);
          && (hit.Some? ==> hit.value.Permit? && hasPermit == hit.value.has && calls == 0)
          && (hit.None? ==>
                && calls == run.calls && 1 <= calls
                && (run.result.Err? ==> !hasPermit)
                && (run.result.Ok? ==>
                      && hasPermit == (run.result.records != [])
                      && key in cache.entries
                      && cache.entries[key] == Caching.Entry(Permit(hasPermit), now, now + CacheTtl, 0)))
          && Caching.SameOutside(old(cache.entries), cache.entries, {key})
    {
      var v := Validation.ValidateLicensePlate(plate);
      if v.Rejected? {
        return false, 0;
      }
      KeyPrefixes(v.value.cleaned);
      hasPermit, calls := PermitByKey(Caching.DisabilityKey(v.value.cleaned), now, outcomes);
    }

    /** `checkDisabilityPermit` after validation, on the plate's permit key. */
    method PermitByKey(key: string, now: int, outcomes: seq<Outcome>) returns (hasPermit: bool, calls: nat)
      requires Valid() && 1 <= |outcomes| && maxRetries <= |outcomes|
      requires "disability:" <= key && !("vehicle:" <= key)
      modifies cache
      ensures Valid()
      ensures var hit := Caching.Lookup(old(cache.entries), key, now);
        var run := Request(outcomes, maxRetries, 1);
        && (hit.Some? ==> hit.value.Permit? && hasPermit == hit.value.has && calls == 0)
        && (hit.None? ==>
              && calls == run.calls && 1 <= calls
              && (run.result.Err? ==> !hasPermit)
              && (run.result.Ok? ==>
                    && hasPermit == (run.result.records != [])
                    && key in cache.entries
                    && cache.entries[key] == Caching.Entry(Permit(hasPermit), now, now + CacheTtl, 0)))
      ensures Caching.SameOutside(old(cache.entries), cache.entries, {key})
    {
      var cached := GetCached(key, now);
      if cached.Some? {
        return cached.value.has, 0;
      }
      var run := MakeApiRequest(outcomes, maxRetries);
      calls := run.calls;
      if run.result.Err? {
        return false, calls;
      }
      hasPermit := run.result.records != [];
      ghost var between := cache.entries;
      PutCached(key, Permit(hasPermit), now);
      Caching.OutsideTrans(old(cache.entries), between, cache.entries, {key}, {key});
      assert {key} + {key} == {key};
    }
  }
}
