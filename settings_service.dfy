/**
 * The in-memory settings store (src/services/userSettingsService.js): a map
 * from user id to the record `toJSON` produced.  Every update reads the
 * user's settings (creating and storing defaults for a new user), changes
 * the object and writes it back.  The clock is the `now` parameter.
 */
module SettingsService {
  import opened Text
  import opened Settings
  import opened Collections

  const DayMs := 86400000
  /** The `daysOld = 30` default of `cleanupOldSettings`. */
  const DefaultDaysOld := 30

  /** The settings `getUserSettings` returns: the stored record read back, or fresh defaults. */
  function Loaded(storage: map<nat, SettingsJson>, userId: nat, now: int): (j: SettingsJson)
    ensures WellFormed(j) && j.updatedAt == now
    ensures userId != 0 && userId in storage ==> j.userId == storage[userId].userId
    ensures !(userId != 0 && userId in storage) ==> j.userId == userId
  {
    if userId != 0 && userId in storage then FromJsonState(storage[userId], now)
    else Construct(userId, NoInput, now)
  }

  /** The store after `getUserSettings`: a new truthy id gets its defaults stored. */
  function Opened(storage: map<nat, SettingsJson>, userId: nat, now: int): (r: map<nat, SettingsJson>)
    ensures r.Keys == if userId != 0 then storage.Keys + {userId} else storage.Keys
    ensures forall u | u in storage :: r[u] == storage[u]
  {
    if userId != 0 && userId !in storage then storage[userId := Construct(userId, NoInput, now)] else storage
  }

  /** The store after `saveUserSettings` of an object whose record is `j`: a falsy id stores nothing. */
  function Saved(storage: map<nat, SettingsJson>, j: SettingsJson): (r: map<nat, SettingsJson>)
    ensures j.userId == 0 ==> r == storage
    ensures j.userId != 0 ==> r.Keys == storage.Keys + {j.userId} && r[j.userId] == j
    ensures forall u | u in storage && u != j.userId :: r[u] == storage[u]
  {
    if j.userId != 0 then storage[j.userId := j] else storage
  }

  /** The users whose record was last updated before `cutoff`. */
  function OldUsers(storage: map<nat, SettingsJson>, cutoff: int): (us: set<nat>)
    ensures forall u :: u in us <==> u in storage && storage[u].updatedAt < cutoff
  {
    set u | u in storage && storage[u].updatedAt < cutoff
  }

  /** Each record is filed under its own user id. */
  ghost predicate KeysMatch(storage: map<nat, SettingsJson>) {
    forall u | u in storage :: storage[u].userId == u
  }

  /** Reading a truthy id twice gives the same settings, and the second read stores nothing. */
  lemma ReadIsStable(storage: map<nat, SettingsJson>, userId: nat, now: int, later: int)
    requires userId != 0
    ensures Opened(Opened(storage, userId, now), userId, later) == Opened(storage, userId, now)
    ensures Loaded(Opened(storage, userId, now), userId, later) == Loaded(storage, userId, now).(updatedAt := later)
  {
    if userId !in storage {
      JsonRoundTrip(Construct(userId, NoInput, now), later);
    } else {
      var x := storage[userId];
      assert FromJsonState(x, later) == FromJsonState(x, now).(updatedAt := later);
    }
  }

  /** What is saved for a truthy id is what the next read returns. */
  lemma SaveThenLoad(storage: map<nat, SettingsJson>, j: SettingsJson, later: int)
    requires WellFormed(j) && j.userId != 0
    ensures Loaded(Saved(storage, j), j.userId, later) == j.(updatedAt := later)
  {
    JsonRoundTrip(j, later);
  }

  /** After setting a known flag, the user's next read reports that flag. */
  lemma UpdateThenRead(storage: map<nat, SettingsJson>, userId: nat, name: string, enabled: bool, now: int, later: int)
    requires KeysMatch(storage) && userId != 0 && name in FieldNames
    ensures var r := SetField(Loaded(storage, userId, now), name, enabled, now);
      && r.0
      && IsFieldEnabled(Loaded(Saved(Opened(storage, userId, now), r.1), userId, later).displayFields, name) == enabled
  {
    var r := SetField(Loaded(storage, userId, now), name, enabled, now);
    SaveThenLoad(Opened(storage, userId, now), r.1, later);
  }

  /** The key order after an operation that may have stored `userId` for the first time. */
  function Grown(order: seq<nat>, userId: nat, storage: map<nat, SettingsJson>): (r: seq<nat>)
    ensures userId in storage && userId !in order ==> r == order + [userId]
    ensures !(userId in storage && userId !in order) ==> r == order
  {
    if userId in storage && userId !in order then order + [userId] else order
  }

  /** The ids of `order` whose record was updated at or after `cutoff`, in order. */
  function Recent(order: seq<nat>, storage: map<nat, SettingsJson>, cutoff: int): (r: seq<nat>)
    requires forall u | u in order :: u in storage
    ensures forall u :: u in r <==> u in order && storage[u].updatedAt >= cutoff
    ensures Distinct(order) ==> Distinct(r)
  {
    if order == [] then []
    else
      var rest := Recent(order[1..], storage, cutoff);
      assert order[0] in order && (Distinct(order) ==> order[0] !in order[1..]);
      if storage[order[0]].updatedAt >= cutoff then [order[0]] + rest else rest
  }

  /** The ids of `order` whose record was updated before `cutoff`, in order. */
  function Outdated(order: seq<nat>, storage: map<nat, SettingsJson>, cutoff: int): (r: seq<nat>)
    requires forall u | u in order :: u in storage
    ensures forall u :: u in r <==> u in order && storage[u].updatedAt < cutoff
    ensures Distinct(order) ==> Distinct(r)
  {
    if order == [] then []
    else
      var rest := Outdated(order[1..], storage, cutoff);
      assert order[0] in order && (Distinct(order) ==> order[0] !in order[1..]);
      if storage[order[0]].updatedAt < cutoff then [order[0]] + rest else rest
  }

  class UserSettingsService {
    var storage: map<nat, SettingsJson>
    /** The keys of `storage` in insertion order, as the `Map` iterates them. */
    var order: seq<nat>

    ghost predicate Valid()
      reads this
    {
      && KeysMatch(storage)
      && Distinct(order)
      && (forall u | u in order :: u in storage)
      && (forall u | u in storage :: u in order)
    }

    constructor()
      ensures Valid() && storage == map[] && order == []
    {
      storage := map[];
      order := [];
    }

    /** `getUserSettings`: a falsy id throws inside and gets unsaved defaults from the `catch`. */
    method GetUserSettings(userId: nat, now: int) returns (s: UserSettings)
      requires Valid()
      modifies this
      ensures Valid()
      ensures fresh(s) && s.Valid()
      ensures s.ToJson() == Loaded(old(storage), userId, now)
      ensures storage == Opened(old(storage), userId, now)
      ensures order == Grown(old(order), userId, storage)
    {
      if userId == 0 {
        s := new UserSettings(userId, NoInput, now);
        return;
      }
      if userId in storage {
        s := UserSettings.FromJson(storage[userId], now);
        return;
      }
      s := new UserSettings(userId, NoInput, now);
      var _ := SaveUserSettings(s, now);
    }

    /** `saveUserSettings`: refuses a missing object or a falsy id, otherwise stamps and stores `toJSON()`. */
    method SaveUserSettings(s: UserSettings?, now: int) returns (ok: bool)
      requires Valid()
      modifies this, s
      ensures Valid()
      ensures ok <==> s != null && old(s.userId) != 0
      ensures !ok ==> storage == old(storage) && order == old(order) && (s != null ==> s.ToJson() == old(s.ToJson()))
      ensures ok ==> s.ToJson() == old(s.ToJson()).(updatedAt := now)
      ensures ok ==> storage == Saved(old(storage), s.ToJson()) && order == Grown(old(order), s.userId, storage)
    {
      if s == null || s.userId == 0 {
        return false;
      }
      s.updatedAt := now;
      if s.userId !in storage {
        order := order + [s.userId];
      }
      storage := storage[s.userId := s.ToJson()];
      return true;
    }

    /** `updateDisplayField`: true iff the name is a display field; the change is then stored. */
    method UpdateDisplayField(userId: nat, name: string, enabled: bool, now: int) returns (ok: bool)
      requires Valid()
      modifies this
      ensures Valid()
      ensures var r := SetField(Loaded(old(storage), userId, now), name, enabled, now);
        && ok == r.0
        && storage == if ok then Saved(Opened(old(storage), userId, now), r.1) else Opened(old(storage), userId, now)
      ensures order == Grown(old(order), userId, storage)
    {
      var s := GetUserSettings(userId, now);
      ok := s.UpdateDisplayField(name, enabled, now);
      if ok {
        var _ := SaveUserSettings(s, now);
      }
    }

    /** `updateMultipleDisplayFields`: every entry applied in order; stored iff one of them was known. */
    method UpdateMultipleDisplayFields(userId: nat, updates: seq<(string, bool)>, now: int) returns (hasChanges: bool)
      requires Valid()
      modifies this
      ensures Valid()
      ensures var r := ApplyUpdates(Loaded(old(storage), userId, now), updates, now);
        && hasChanges == r.0
        && storage == if hasChanges then Saved(Opened(old(storage), userId, now), r.1) else Opened(old(storage), userId, now)
      ensures order == Grown(old(order), userId, storage)
    {
      var s := GetUserSettings(userId, now);
      ghost var start := s.ToJson();
      hasChanges := false;
      var i := 0;
      while i < |updates|
        invariant 0 <= i <= |updates|
        invariant Valid() && s.Valid()
        invariant storage == Opened(old(storage), userId, now) && order == Grown(old(order), userId, storage)
        invariant (hasChanges, s.ToJson()) == ApplyUpdates(start, updates[..i], now)
      {
        assert updates[..i + 1][..i] == updates[..i];
        var changed := s.UpdateDisplayField(updates[i].0, updates[i].1, now);
        if changed {
          hasChanges := true;
        }
        i := i + 1;
      }
      assert updates[..i] == updates;
      if hasChanges {
        var _ := SaveUserSettings(s, now);
      }
    }

    /** `resetUserToDefaults`: always reports success; a truthy id gets the defaults stored. */
    method ResetUserToDefaults(userId: nat, now: int) returns (ok: bool)
      requires Valid()
      modifies this
      ensures Valid()
      ensures ok
      ensures storage == Saved(Opened(old(storage), userId, now), ResetState(Loaded(old(storage), userId, now), now))
      ensures order == Grown(old(order), userId, storage)
    {
      var s := GetUserSettings(userId, now);
      s.ResetToDefaults(now);
      var _ := SaveUserSettings(s, now);
      return true;
    }

    /** `updateUserLanguage`: only `he` and `en` are accepted, before the store is touched. */
    method UpdateUserLanguage(userId: nat, language: string, now: int) returns (ok: bool)
      requires Valid()
      modifies this
      ensures Valid()
      ensures ok <==> language == "he" || language == "en"
      ensures !ok ==> storage == old(storage)
      ensures ok ==> (storage ==
        Saved(Opened(old(storage), userId, now), Loaded(old(storage), userId, now).(language := language)))
      ensures order == Grown(old(order), userId, storage)
    {
      if language != "he" && language != "en" {
        return false;
      }
      var s := GetUserSettings(userId, now);
      s.language := language;
      s.updatedAt := now;
      var _ := SaveUserSettings(s, now);
      return true;
    }

    /** `updateCompactMode`: always reports success. */
    method UpdateCompactMode(userId: nat, compactMode: bool, now: int) returns (ok: bool)
      requires Valid()
      modifies this
      ensures Valid()
      ensures ok
      ensures storage ==
        Saved(Opened(old(storage), userId, now), Loaded(old(storage), userId, now).(compactMode := compactMode))
      ensures order == Grown(old(order), userId, storage)
    {
      var s := GetUserSettings(userId, now);
      s.compactMode := compactMode;
      s.updatedAt := now;
      var _ := SaveUserSettings(s, now);
      return true;
    }

    /** `deleteUserSettings`: true iff the user had a record; only that record goes. */
    method DeleteUserSettings(userId: nat) returns (deleted: bool)
      requires Valid()
      modifies this
      ensures Valid()
      ensures deleted <==> userId in old(storage)
      ensures storage == old(storage) - {userId}
      ensures order == Without(old(order), userId)
    {
      deleted := userId in storage;
      storage := storage - {userId};
      order := Without(order, userId);
    }

    /** `getAllUserIds`: every stored id once, in insertion order. */
    method GetAllUserIds() returns (ids: seq<nat>)
      requires Valid()
      ensures ids == order
      ensures Distinct(ids)
      ensures forall u :: u in ids <==> u in storage
    {
      ids := order;
    }

    /** `importUserSettings`: the record must carry the same truthy id; it is stored as `fromJSON` reads it. */
    method ImportUserSettings(userId: nat, data: Option<SettingsJson>, now: int) returns (ok: bool)
      requires Valid()
      modifies this
      ensures Valid()
      ensures ok <==> data.Some? && data.value.userId != 0 && data.value.userId == userId
      ensures !ok ==> storage == old(storage)
      ensures ok ==> storage == old(storage)[userId := FromJsonState(data.value, now)]
      ensures order == Grown(old(order), userId, storage)
    {
      if data.None? || data.value.userId == 0 || data.value.userId != userId {
        return false;
      }
      var s := UserSettings.FromJson(data.value, now);
      var _ := SaveUserSettings(s, now);
      return true;
    }

    /** `cleanupOldSettings`: deletes exactly the records not updated in the last `daysOld` days; a caller that omits `daysOld` passes `DefaultDaysOld`. */
    method CleanupOldSettings(daysOld: int, now: int) returns (deletedCount: nat)
      requires Valid()
      modifies this
      ensures Valid()
      ensures storage == old(storage) - OldUsers(old(storage), now - daysOld * DayMs)
      ensures order == Recent(old(order), old(storage), now - daysOld * DayMs)
      ensures deletedCount == |OldUsers(old(storage), now - daysOld * DayMs)|
    {
      var cutoff := now - daysOld * DayMs;
      ghost var before := storage;
      var kept;
      kept, deletedCount := DeleteOutdated(order, cutoff);
      var gone := Outdated(old(order), before, cutoff);
      assert Elements(gone) == OldUsers(before, cutoff);
      DistinctCardinality(gone);
      order := kept;
    }

    /** The loop of `cleanupOldSettings` over a snapshot of the keys: delete each outdated record. */
    method DeleteOutdated(ids: seq<nat>, cutoff: int) returns (kept: seq<nat>, deletedCount: nat)
      requires Distinct(ids) && forall u | u in ids :: u in storage
      modifies this
      ensures storage == old(storage) - Elements(Outdated(ids, old(storage), cutoff))
      ensures kept == Recent(ids, old(storage), cutoff)
      ensures deletedCount == |Outdated(ids, old(storage), cutoff)|
      ensures order == old(order)
    {
      kept := [];
      ghost var gone: seq<nat> := [];
      deletedCount := 0;
      var i := 0;
      while i < |ids|
        invariant 0 <= i <= |ids| && order == old(order)
        invariant kept == Recent(ids[..i], old(storage), cutoff)
        invariant gone == Outdated(ids[..i], old(storage), cutoff)
        invariant storage == old(storage) - Elements(gone)
        invariant deletedCount == |gone|
      {
        var u := ids[i];
        assert ids[..i + 1] == ids[..i] + [u];
        assert u !in ids[..i];
        assert u !in gone && u in storage;
        RecentAppend(ids[..i], u, old(storage), cutoff);
        OutdatedAppend(ids[..i], u, old(storage), cutoff);
        if storage[u].updatedAt < cutoff {
          MapMinusStep(old(storage), Elements(gone), u);
          assert Elements(gone + [u]) == Elements(gone) + {u};
          storage := storage - {u};
          gone := gone + [u];
          deletedCount := deletedCount + 1;
        } else {
          kept := kept + [u];
        }
        i := i + 1;
      }
      assert ids[..i] == ids;
    }
  }

  /** Extending the scanned prefix by one id extends the recent list when that id is recent. */
  lemma {:induction false} RecentAppend(order: seq<nat>, u: nat, storage: map<nat, SettingsJson>, cutoff: int)
    requires forall v | v in order :: v in storage
    requires u in storage
    ensures Recent(order + [u], storage, cutoff) ==
      Recent(order, storage, cutoff) + (if storage[u].updatedAt >= cutoff then [u] else [])
  {
    if order != [] {
      assert (order + [u])[1..] == order[1..] + [u];
      RecentAppend(order[1..], u, storage, cutoff);
    }
  }

  /** Extending the scanned prefix by one id extends the outdated list when that id is outdated. */
  lemma {:induction false} OutdatedAppend(order: seq<nat>, u: nat, storage: map<nat, SettingsJson>, cutoff: int)
    requires forall v | v in order :: v in storage
    requires u in storage
    ensures Outdated(order + [u], storage, cutoff) ==
      Outdated(order, storage, cutoff) + (if storage[u].updatedAt < cutoff then [u] else [])
  {
    if order != [] {
      assert (order + [u])[1..] == order[1..] + [u];
      OutdatedAppend(order[1..], u, storage, cutoff);
    }
  }
}
