/**
 * The license plate handler (src/handlers/licensePlateHandler.js): the
 * guard against a second search for the same user and plate while one is
 * under way, the search itself (vehicle first, the disability permit only
 * for a vehicle that was found) and the error path.
 *
 * Telegram calls are left out; whether the "searching" message and the
 * result update could be delivered are parameters.  A search that awaits
 * is split into its synchronous start (`Acquire`) and the rest, so that a
 * second request can be placed in between.
 */
module PlateHandler {
  import opened Text
  import opened Events
  import Vehicles
  import Validation
  import Fetcher
  import Errors
  import Caching

  /** `${userId}_${licensePlate}`. */
  function SearchKey(userId: string, plate: string): (key: string)
    ensures |key| == |userId| + 1 + |plate|
    ensures key[..|userId|] == userId && key[|userId|] == '_' && key[|userId| + 1..] == plate
  {
    userId + "_" + plate
  }

  /** In the key of a numeric user id the first `_` follows the id. */
  lemma FirstUnderscore(userId: string, plate: string)
    requires AllDigits(userId)
    ensures forall i | 0 <= i < |userId| :: SearchKey(userId, plate)[i] != '_'
    ensures SearchKey(userId, plate)[|userId|] == '_'
  {
    var key := SearchKey(userId, plate);
    forall i | 0 <= i < |userId|
      ensures key[i] != '_'
    {
      assert key[i] == key[..|userId|][i] == userId[i];
    }
  }

  /** Keys of numeric user ids tell searches apart: one key, one user and one plate. */
  lemma SearchKeyInjective(u1: string, p1: string, u2: string, p2: string)
    requires AllDigits(u1) && AllDigits(u2)
    requires SearchKey(u1, p1) == SearchKey(u2, p2)
    ensures u1 == u2 && p1 == p2
  {
    FirstUnderscore(u1, p1);
    FirstUnderscore(u2, p2);
    assert |u1| == |u2|;
  }

  /** `_performSearch`'s result, without the elapsed time. */
  datatype SearchResults = SearchResults(vehicleData: Option<Vehicles.VehicleData>, hasDisabilityPermit: bool)

  /** A search that completed, or the `type` of the error it threw. */
  datatype Performed = Completed(results: SearchResults) | Failed(errType: string)

  /** The vehicle `searchVehicle` takes from the cache for the cleaned plate, if a live one is there. */
  function CachedVehicle(entries: map<string, Caching.Entry<Fetcher.Cached>>, cleaned: string, now: int): Option<Vehicles.VehicleData> {
    var hit := Caching.Lookup(entries, Caching.VehicleKey(cleaned), now);
    if hit.Some? && hit.value.VehicleResult? then Some(hit.value.vehicle) else None
  }

  /** The two cache keys a search for a cleaned plate may touch: its vehicle key and its permit key. */
  function PlateKeys(cleaned: string): set<string> {
    {Caching.VehicleKey(cleaned), Caching.DisabilityKey(cleaned)}
  }

  /**
   * The permit lookup of a search, seen across the vehicle search that ran
   * before it: a permit key absent before the vehicle search is absent after
   * it, and one present stays when nothing could be evicted (`kept`).
   */
  lemma PermitAcrossSearch(before: map<string, Caching.Entry<Fetcher.Cached>>, between: map<string, Caching.Entry<Fetcher.Cached>>,
                           after: map<string, Caching.Entry<Fetcher.Cached>>, cleaned: string, now: int,
                           hasPermit: bool, fetched: bool, kept: bool)
    requires Caching.VehicleKey(cleaned) != Caching.DisabilityKey(cleaned)
    requires Caching.SameOutside(before, between, {Caching.VehicleKey(cleaned)})
    requires kept ==> Caching.KeptOutside(before, between, {Caching.VehicleKey(cleaned)})
    requires var hit := Caching.Lookup(between, Caching.DisabilityKey(cleaned), now);
      && (hit.None? ==> hasPermit == fetched)
      && (hit.Some? ==> hit.value.Permit? && hasPermit == hit.value.has)
    requires Caching.SameOutside(between, after, {Caching.DisabilityKey(cleaned)})
    ensures var hit := Caching.Lookup(before, Caching.DisabilityKey(cleaned), now);
      && (hit.None? ==> hasPermit == fetched)
      && (hit.Some? && kept ==> hit.value == Fetcher.Permit(hasPermit))
    ensures Caching.SameOutside(before, after, PlateKeys(cleaned))
  {
    var vk, dk := Caching.VehicleKey(cleaned), Caching.DisabilityKey(cleaned);
    Caching.LookupOutside(before, between, {vk}, dk, now);
    Caching.OutsideTrans(before, between, after, {vk}, {dk});
    assert {vk} + {dk} == PlateKeys(cleaned);
  }

  /**
   * What a search on a free key leaves behind: it succeeds exactly when the
   * notice is sent, the plate is valid, a vehicle result comes from the cache
   * or the API, and the result message is updated; each failed step counts
   * one error under its own type; and only the plate's two cache keys may
   * change, and only once the plate is valid.
   */
  ghost predicate SearchOutcome(
    plate: string, now: int, vehicleRun: Fetcher.Run, sendFails: bool, updateFails: bool, ok: bool,
    stats: map<string, nat>, stats': map<string, nat>,
    entries: map<string, Caching.Entry<Fetcher.Cached>>, entries': map<string, Caching.Entry<Fetcher.Cached>>)
  {
    var v := Validation.ValidateLicensePlate(Str(plate));
    && (ok <==> !sendFails && !updateFails && v.Accepted? && (CachedVehicle(entries, v.value.cleaned, now).Some? || vehicleRun.result.Ok?))
    && (ok ==> stats' == stats)
    && (sendFails ==> stats' == Errors.Counted(stats, "") && entries' == entries)
    && (!sendFails && v.Rejected? ==> stats' == Errors.Counted(stats, v.error) && entries' == entries)
    && (!sendFails && v.Accepted? ==>
          var found := CachedVehicle(entries, v.value.cleaned, now).Some? || vehicleRun.result.Ok?;
          && (!found ==> stats' == Errors.Counted(stats, vehicleRun.result.errType))
          && (found && updateFails ==> stats' == Errors.Counted(stats, ""))
          && Caching.SameOutside(entries, entries', PlateKeys(v.value.cleaned)))
  }

  class LicensePlateHandler {
    var activeSearches: set<string>
    const service: Fetcher.VehicleDataService
    const errorHandler: Errors.ErrorHandler

    ghost predicate Valid()
      reads this, service, service.cache
    {
      service.Valid()
    }

    /** A handler with its own service (built with `retryOption`) and no search under way. */
    constructor(retryOption: int)
      ensures Valid() && fresh(service) && fresh(service.cache) && fresh(errorHandler)
      ensures activeSearches == {}
      ensures service.maxRetries == (if retryOption != 0 then retryOption else Fetcher.DefaultMaxRetries)
    {
      activeSearches := {};
      service := new Fetcher.VehicleDataService(retryOption);
      errorHandler := new Errors.ErrorHandler();
    }

    /** `isSearchActive`. */
    function IsSearchActive(userId: string, plate: string): (active: bool)
      reads this
      ensures active <==> SearchKey(userId, plate) in activeSearches
    {
      SearchKey(userId, plate) in activeSearches
    }

    /** `clearActiveSearches`. */
    method ClearActiveSearches()
      modifies this
      ensures activeSearches == {}
      ensures forall u: string, p: string :: !IsSearchActive(u, p)
    {
      activeSearches := {};
    }

    /**
     * The synchronous start of `handleLicensePlateSearch`: a held key is
     * reported, a free one is taken before the first `await`.
     */
    method Acquire(userId: string, plate: string) returns (acquired: bool)
      modifies this
      ensures acquired <==> SearchKey(userId, plate) !in old(activeSearches)
      ensures activeSearches == old(activeSearches) + {SearchKey(userId, plate)}
    {
      var key := SearchKey(userId, plate);
      if key in activeSearches {
        return false;
      }
      activeSearches := activeSearches + {key};
      acquired := true;
    }

    /**
     * `_performSearch`: the vehicle first; the disability permit is asked
     * for only when a vehicle was found, and an error is rethrown.
     */
    method PerformSearch(plate: string, now: int, vehicleOutcomes: seq<Fetcher.Outcome>, permitOutcomes: seq<Fetcher.Outcome>)
      returns (p: Performed, permitChecked: bool)
      requires Valid()
      requires 1 <= |vehicleOutcomes| && service.maxRetries <= |vehicleOutcomes|
      requires 1 <= |permitOutcomes| && service.maxRetries <= |permitOutcomes|
      modifies service.cache
      ensures Valid()
      ensures permitChecked <==> p.Completed? && p.results.vehicleData.Some?
      ensures p.Completed? && p.results.vehicleData.None? ==> !p.results.hasDisabilityPermit
      ensures var v := Validation.ValidateLicensePlate(Str(plate));
        v.Rejected? ==> p == Failed(v.error) && !permitChecked && unchanged(service.cache)
      ensures var v := Validation.ValidateLicensePlate(Str(plate));
        v.Accepted? ==>
          var cached := CachedVehicle(old(service.cache.entries), v.value.cleaned, now);
          var run := Fetcher.Request(vehicleOutcomes, service.maxRetries, 1);
          && (cached.Some? ==> p.Completed? && p.results.vehicleData == cached)
          && (cached.None? && run.result.Err? ==> p == Failed(run.result.errType))
          && (cached.None? && run.result.Ok? ==> p.Completed? && p.results.vehicleData == Fetcher.FirstVehicle(run.result.records))
      ensures var v := Validation.ValidateLicensePlate(Str(plate));
        v.Accepted? ==>
          var cached := CachedVehicle(old(service.cache.entries), v.value.cleaned, now);
          var permitHit := Caching.Lookup(old(service.cache.entries), Caching.DisabilityKey(v.value.cleaned), now);
          var permitRun := Fetcher.Request(permitOutcomes, service.maxRetries, 1);
          && (p.Completed? && permitChecked && permitHit.None? ==>
                p.results.hasDisabilityPermit == (permitRun.result.Ok? && permitRun.result.records != []))
          && (p.Completed? && permitChecked && permitHit.Some? && (cached.Some? || |old(service.cache.entries)| < service.cache.maxSize) ==>
                permitHit.value == Fetcher.Permit(p.results.hasDisabilityPermit))
          && Caching.SameOutside(old(service.cache.entries), service.cache.entries, PlateKeys(v.value.cleaned))
    {
      ghost var before := service.cache.entries;
      var search, _ := service.SearchVehicle(Str(plate), now, vehicleOutcomes);
      ghost var v := Validation.ValidateLicensePlate(Str(plate));
      if search.Threw? {
        if v.Accepted? {
          Caching.OutsideGrow(before, service.cache.entries, {Caching.VehicleKey(v.value.cleaned)}, PlateKeys(v.value.cleaned));
        }
        return Failed(search.errType), false;
      }
      p, permitChecked := WithPermit(plate, now, permitOutcomes, search.vehicle, before, v.value.cleaned);
    }

    /**
     * The rest of `_performSearch` once the vehicle search returned: the
     * disability permit is asked for only when a vehicle was found.  The
     * contract speaks of `before`, the cache as the search found it.
     */
    method WithPermit(plate: string, now: int, permitOutcomes: seq<Fetcher.Outcome>, vehicle: Option<Vehicles.VehicleData>,
                      ghost before: map<string, Caching.Entry<Fetcher.Cached>>, ghost cleaned: string)
      returns (p: Performed, permitChecked: bool)
      requires Valid()
      requires 1 <= |permitOutcomes| && service.maxRetries <= |permitOutcomes|
      requires var v := Validation.ValidateLicensePlate(Str(plate)); v.Accepted? && v.value.cleaned == cleaned
      requires Caching.SameOutside(before, service.cache.entries, {Caching.VehicleKey(cleaned)})
      requires CachedVehicle(before, cleaned, now).Some? || |before| < service.cache.maxSize ==>
        Caching.KeptOutside(before, service.cache.entries, {Caching.VehicleKey(cleaned)})
      modifies service.cache
      ensures Valid()
      ensures permitChecked <==> vehicle.Some?
      ensures p.Completed? && p.results.vehicleData == vehicle
      ensures vehicle.None? ==> !p.results.hasDisabilityPermit && unchanged(service.cache)
      ensures var permitHit := Caching.Lookup(before, Caching.DisabilityKey(cleaned), now);
        var permitRun := Fetcher.Request(permitOutcomes, service.maxRetries, 1);
        && (vehicle.Some? && permitHit.None? ==>
              p.results.hasDisabilityPermit == (permitRun.result.Ok? && permitRun.result.records != []))
        && (vehicle.Some? && permitHit.Some? && (CachedVehicle(before, cleaned, now).Some? || |before| < service.cache.maxSize) ==>
              permitHit.value == Fetcher.Permit(p.results.hasDisabilityPermit))
      ensures Caching.SameOutside(before, service.cache.entries, PlateKeys(cleaned))
    {
      var hasPermit := false;
      permitChecked := false;
      if vehicle.Some? {
        hasPermit := AskPermit(plate, now, permitOutcomes, before, cleaned);
        permitChecked := true;
      } else {
        Caching.OutsideGrow(before, service.cache.entries, {Caching.VehicleKey(cleaned)}, PlateKeys(cleaned));
      }
      p := Completed(SearchResults(vehicle, hasPermit));
    }

    /** The `checkDisabilityPermit` call of `_performSearch`, seen from the cache as the vehicle search found it. */
    method AskPermit(plate: string, now: int, permitOutcomes: seq<Fetcher.Outcome>,
                     ghost before: map<string, Caching.Entry<Fetcher.Cached>>, ghost cleaned: string)
      returns (hasPermit: bool)
      requires Valid()
      requires 1 <= |permitOutcomes| && service.maxRetries <= |permitOutcomes|
      requires var v := Validation.ValidateLicensePlate(Str(plate)); v.Accepted? && v.value.cleaned == cleaned
      requires Caching.SameOutside(before, service.cache.entries, {Caching.VehicleKey(cleaned)})
      requires CachedVehicle(before, cleaned, now).Some? || |before| < service.cache.maxSize ==>
        Caching.KeptOutside(before, service.cache.entries, {Caching.VehicleKey(cleaned)})
      modifies service.cache
      ensures Valid()
      ensures var permitHit := Caching.Lookup(before, Caching.DisabilityKey(cleaned), now);
        var permitRun := Fetcher.Request(permitOutcomes, service.maxRetries, 1);
        && (permitHit.None? ==> hasPermit == (permitRun.result.Ok? && permitRun.result.records != []))
        && (permitHit.Some? && (CachedVehicle(before, cleaned, now).Some? || |before| < service.cache.maxSize) ==>
              permitHit.value == Fetcher.Permit(hasPermit))
      ensures Caching.SameOutside(before, service.cache.entries, PlateKeys(cleaned))
    {
      ghost var between := service.cache.entries;
      var calls;
      hasPermit, calls := service.CheckDisabilityPermit(Str(plate), now, permitOutcomes);
      ghost var run := Fetcher.Request(permitOutcomes, service.maxRetries, 1);
      Caching.KeysDisjoint(cleaned, cleaned);
      PermitAcrossSearch(before, between, service.cache.entries, cleaned, now, hasPermit,
        run.result.Ok? && run.result.records != [], CachedVehicle(before, cleaned, now).Some? || |before| < service.cache.maxSize);
    }

    /**
     * The `try` and `catch` of `handleLicensePlateSearch` after the key is
     * taken: the "searching" message, the search and the result update;
     * an error is counted once by the error handler and gives `false`.
     */
    method RunSearch(
      plate: string, now: int, vehicleOutcomes: seq<Fetcher.Outcome>, permitOutcomes: seq<Fetcher.Outcome>,
      sendFails: bool, updateFails: bool)
      returns (ok: bool, ghost errType: string)
      requires Valid()
      requires 1 <= |vehicleOutcomes| && service.maxRetries <= |vehicleOutcomes|
      requires 1 <= |permitOutcomes| && service.maxRetries <= |permitOutcomes|
      modifies service.cache, errorHandler
      ensures Valid()
      ensures !ok ==> errorHandler.errorStats == Errors.Counted(old(errorHandler.errorStats), errType)
      ensures SearchOutcome(plate, now, Fetcher.Request(vehicleOutcomes, service.maxRetries, 1), sendFails, updateFails, ok,
        old(errorHandler.errorStats), errorHandler.errorStats, old(service.cache.entries), service.cache.entries)
    {
      if sendFails {
        var _, _ := errorHandler.HandleError("", true);
        return false, "";
      }
      var performed, _ := PerformSearch(plate, now, vehicleOutcomes, permitOutcomes);
      ok, errType := Report(performed, updateFails);
    }

    /**
     * What follows `_performSearch` in the `try`: the result update, or
     * the `catch` for a failed search or a failed update.
     */
    method Report(performed: Performed, updateFails: bool) returns (ok: bool, ghost errType: string)
      modifies errorHandler
      ensures ok <==> performed.Completed? && !updateFails
      ensures ok ==> errorHandler.errorStats == old(errorHandler.errorStats)
      ensures !ok ==> errorHandler.errorStats == Errors.Counted(old(errorHandler.errorStats), errType)
      ensures performed.Failed? ==> errType == performed.errType
      ensures performed.Completed? && updateFails ==> errType == ""
    {
      if performed.Failed? {
        var _, _ := errorHandler.HandleError(performed.errType, true);
        return false, performed.errType;
      }
      if updateFails {
        var _, _ := errorHandler.HandleError("", true);
        return false, "";
      }
      ok, errType := true, "";
    }

    /**
     * `handleLicensePlateSearch` as written: the duplicate check sits
     * inside the `try`, so its `return false` also runs the `finally`,
     * which releases the key whoever holds it.
     */
    method HandleLicensePlateSearchAsWritten(
      plate: string, userId: string, now: int,
      vehicleOutcomes: seq<Fetcher.Outcome>, permitOutcomes: seq<Fetcher.Outcome>,
      sendFails: bool, updateFails: bool)
      returns (ok: bool)
      requires Valid()
      requires 1 <= |vehicleOutcomes| && service.maxRetries <= |vehicleOutcomes|
      requires 1 <= |permitOutcomes| && service.maxRetries <= |permitOutcomes|
      modifies this, service.cache, errorHandler
      ensures Valid()
      ensures activeSearches == old(activeSearches) - {SearchKey(userId, plate)}
      ensures SearchKey(userId, plate) in old(activeSearches) ==>
        && !ok && unchanged(service.cache)
        && errorHandler.errorStats == if sendFails then Errors.Counted(old(errorHandler.errorStats), "") else old(errorHandler.errorStats)
      ensures SearchKey(userId, plate) !in old(activeSearches) ==>
        SearchOutcome(plate, now, Fetcher.Request(vehicleOutcomes, service.maxRetries, 1), sendFails, updateFails, ok,
          old(errorHandler.errorStats), errorHandler.errorStats, old(service.cache.entries), service.cache.entries)
    {
      var acquired := Acquire(userId, plate);
      if !acquired {
        if sendFails {
          var _, _ := errorHandler.HandleError("", true);
        }
        ok := false;
      } else {
        ghost var errType;
        ok, errType := RunSearch(plate, now, vehicleOutcomes, permitOutcomes, sendFails, updateFails);
      }
      activeSearches := activeSearches - {SearchKey(userId, plate)};
    }

    /**
     * `handleLicensePlateSearch` corrected: the duplicate check stays
     * inside the `try`, so a failed "already searching" send still reaches
     * `handleError`, but the `finally` releases only a key this call took.
     * A rejected duplicate thus leaves the key to the search that holds it.
     */
    method HandleLicensePlateSearch(
      plate: string, userId: string, now: int,
      vehicleOutcomes: seq<Fetcher.Outcome>, permitOutcomes: seq<Fetcher.Outcome>,
      sendFails: bool, updateFails: bool)
      returns (ok: bool)
      requires Valid()
      requires 1 <= |vehicleOutcomes| && service.maxRetries <= |vehicleOutcomes|
      requires 1 <= |permitOutcomes| && service.maxRetries <= |permitOutcomes|
      modifies this, service.cache, errorHandler
      ensures Valid()
      ensures activeSearches == old(activeSearches)
      ensures SearchKey(userId, plate) in old(activeSearches) ==>
        && !ok && unchanged(service.cache)
        && errorHandler.errorStats == if sendFails then Errors.Counted(old(errorHandler.errorStats), "") else old(errorHandler.errorStats)
      ensures SearchKey(userId, plate) !in old(activeSearches) ==>
        SearchOutcome(plate, now, Fetcher.Request(vehicleOutcomes, service.maxRetries, 1), sendFails, updateFails, ok,
          old(errorHandler.errorStats), errorHandler.errorStats, old(service.cache.entries), service.cache.entries)
    {
      var acquired := Acquire(userId, plate);
      if !acquired {
        if sendFails {
          var _, _ := errorHandler.HandleError("", true);
        }
        return false;
      }
      var key := SearchKey(userId, plate);
      assert activeSearches - {key} == old(activeSearches);
      assert service.cache.entries == old(service.cache.entries);
      assert errorHandler.errorStats == old(errorHandler.errorStats);
      ghost var errType;
      ok, errType := RunSearch(plate, now, vehicleOutcomes, permitOutcomes, sendFails, updateFails);
      activeSearches := activeSearches - {key};
    }
  }

  /** Outcomes for a request that is never made. */
  const Unused: seq<Fetcher.Outcome> := [Fetcher.Response(false, []), Fetcher.Response(false, []), Fetcher.Response(false, [])]

  /**
   * A second request for plate 1234567 by user 42 arrives while the first
   * is awaiting its search: as written, the rejected duplicate releases
   * the first search's key.
   */
  method DuplicateDuringSearchAsWritten() returns (stillHeld: bool)
    ensures !stillHeld
  {
    var h := new LicensePlateHandler(0);
    var first := h.Acquire("42", "1234567");
    var second := h.HandleLicensePlateSearchAsWritten("1234567", "42", 0, Unused, Unused, false, false);
    stillHeld := h.IsSearchActive("42", "1234567");
  }

  /** The same interleaving with the corrected `finally`, which releases only a key this call took: the first search keeps its key. */
  method DuplicateDuringSearch() returns (stillHeld: bool, secondOk: bool)
    ensures stillHeld && !secondOk
  {
    var h := new LicensePlateHandler(0);
    var first := h.Acquire("42", "1234567");
    secondOk := h.HandleLicensePlateSearch("1234567", "42", 0, Unused, Unused, false, false);
    stillHeld := h.IsSearchActive("42", "1234567");
  }
}
