/**
 * A user's preferences (src/models/UserSettings.js): the interface
 * language, thirteen display flags in a fixed order, notifications and
 * compact mode, with creation and update times.  The record `toJSON`
 * produces is the `SettingsJson` value; `UserSettings` is the mutable
 * object, whose queries are the functions over that record.
 */
module Settings {
  import opened Text
  import opened Collections

  /** The display fields, in the order the object literal lists them. */
  const FieldNames: seq<string> := [
    "manufacturer", "model", "year", "color", "engineVolume", "fuelType", "ownershipType",
    "testDate", "disabilityPermit", "vehicleType", "seats", "weight", "firstRegistration"]

  /** The Hebrew label of each display field, in the same order (`getFieldDescriptions`). */
  const FieldDescriptions: seq<(string, string)> := [
    ("manufacturer", "🏭 יצרן"),
    ("model", "🚗 דגם"),
    ("year", "📅 שנת ייצור"),
    ("color", "🎨 צבע"),
    ("engineVolume", "⚙️ נפח מנוע"),
    ("fuelType", "⛽ סוג דלק"),
    ("ownershipType", "👤 סוג בעלות"),
    ("testDate", "🔍 תוקף טסט"),
    ("disabilityPermit", "♿ תו נכה"),
    ("vehicleType", "🚙 סוג רכב"),
    ("seats", "💺 מספר מושבים"),
    ("weight", "⚖️ משקל"),
    ("firstRegistration", "📋 רישום ראשון")]

  /** `getDefaultSettings().displayFields`: the first nine fields on, the last four off. */
  const DefaultDisplayFields: map<string, bool> := map[
    "manufacturer" := true, "model" := true, "year" := true, "color" := true,
    "engineVolume" := true, "fuelType" := true, "ownershipType" := true,
    "testDate" := true, "disabilityPermit" := true,
    "vehicleType" := false, "seats" := false, "weight" := false, "firstRegistration" := false]

  const DefaultLanguage := "he"

  /** What `toJSON` returns and the store keeps; times are milliseconds. */
  datatype SettingsJson = SettingsJson(
    userId: nat,
    language: string,
    displayFields: map<string, bool>,
    notifications: bool,
    compactMode: bool,
    createdAt: int,
    updatedAt: int)

  /**
   * The constructor's `settings` argument; `None` is a property that is
   * absent or `null`.  A `userId` of 0 stands for a falsy id.
   */
  datatype SettingsInput = SettingsInput(
    language: Option<string>,
    displayFields: Option<map<string, bool>>,
    notifications: Option<bool>,
    compactMode: Option<bool>,
    createdAt: Option<int>)

  const NoInput := SettingsInput(None, None, None, None, None)

  /** The shape every `UserSettings` object keeps: all thirteen flags and a language. */
  predicate WellFormed(j: SettingsJson) {
    j.displayFields.Keys == Elements(FieldNames) && j.language != ""
  }

  lemma FieldNamesDistinct()
    ensures Distinct(FieldNames) && |FieldNames| == 13
  {
  }

  /** The descriptions cover exactly the display fields, in their order, and the defaults too. */
  lemma DescriptionsMatchFields()
    ensures |FieldDescriptions| == |FieldNames|
    ensures forall i | 0 <= i < |FieldNames| :: FieldDescriptions[i].0 == FieldNames[i]
    ensures DefaultDisplayFields.Keys == Elements(FieldNames)
  {
  }

  /** The first nine fields default to shown, the remaining four to hidden. */
  lemma DefaultFlags()
    ensures forall i | 0 <= i < 9 :: DefaultDisplayFields[FieldNames[i]]
    ensures forall i | 9 <= i < 13 :: !DefaultDisplayFields[FieldNames[i]]
  {
    DescriptionsMatchFields();
  }

  /** The `displayFields?.<name> ?? default` block: exactly the thirteen fields, supplied values kept. */
  function DisplayFieldsFrom(given: Option<map<string, bool>>): (r: map<string, bool>)
    ensures r.Keys == Elements(FieldNames)
  {
    DescriptionsMatchFields();
    map k | k in Elements(FieldNames) ::
      if given.Some? && k in given.value then given.value[k] else DefaultDisplayFields[k]
  }

  /** The state `new UserSettings(userId, settings)` creates at time `now`. */
  function Construct(userId: nat, input: SettingsInput, now: int): (j: SettingsJson)
    ensures WellFormed(j)
  {
    SettingsJson(
      userId,
      if input.language.Some? && input.language.value != "" then input.language.value else DefaultLanguage,
      DisplayFieldsFrom(input.displayFields),
      if input.notifications.Some? then input.notifications.value else true,
      if input.compactMode.Some? then input.compactMode.value else false,
      if input.createdAt.Some? then input.createdAt.value else now,
      now)
  }

  /** Without settings the constructor gives Hebrew, the default flags, notifications on and compact mode off. */
  lemma ConstructorDefaults(userId: nat, now: int)
    ensures Construct(userId, NoInput, now) ==
      SettingsJson(userId, "he", DefaultDisplayFields, true, false, now, now)
  {
    DescriptionsMatchFields();
  }

  /** A falsy language falls back to Hebrew; any other language is kept. */
  lemma ConstructorLanguage(userId: nat, input: SettingsInput, now: int)
    ensures Construct(userId, input, now).language ==
      if input.language.None? || input.language.value == "" then "he" else input.language.value
  {
  }

  /** Supplied flags win over the defaults; unknown names in `settings.displayFields` are dropped. */
  lemma ConstructorFlags(userId: nat, input: SettingsInput, now: int, name: string)
    requires name in FieldNames
    ensures var f := Construct(userId, input, now).displayFields;
      && (input.displayFields.Some? && name in input.displayFields.value ==> f[name] == input.displayFields.value[name])
      && (input.displayFields.None? || name !in input.displayFields.value ==> f[name] == DefaultDisplayFields[name])
  {
  }

  /** `fromJSON`: the constructor fed with the stored properties. */
  function FromJsonState(data: SettingsJson, now: int): (j: SettingsJson)
    ensures WellFormed(j) && j.userId == data.userId && j.updatedAt == now
  {
    Construct(data.userId,
      SettingsInput(Some(data.language), Some(data.displayFields), Some(data.notifications),
                    Some(data.compactMode), Some(data.createdAt)),
      now)
  }

  /** `fromJSON(toJSON(s))` keeps everything but the update time, which becomes the time of reading. */
  lemma JsonRoundTrip(j: SettingsJson, now: int)
    requires WellFormed(j)
    ensures FromJsonState(j, now) == j.(updatedAt := now)
  {
  }

  /** What `updateDisplayField` does to the record: the result flag and the new state. */
  function SetField(j: SettingsJson, name: string, enabled: bool, now: int): (r: (bool, SettingsJson))
    ensures r.0 <==> name in j.displayFields
    ensures r.1.displayFields.Keys == j.displayFields.Keys
    ensures r.0 ==> r.1.displayFields[name] == enabled && r.1.updatedAt == now
    ensures forall k | k in j.displayFields && k != name :: r.1.displayFields[k] == j.displayFields[k]
    ensures r.1.(displayFields := j.displayFields, updatedAt := j.updatedAt) == j
    ensures !r.0 ==> r.1 == j
  {
    if name in j.displayFields then
      (true, j.(displayFields := j.displayFields[name := enabled], updatedAt := now))
    else
      (false, j)
  }

  /**
   * `updateDisplayField` applied to the entries of `updates` in order: the
   * flag says whether any of them named a known field.
   */
  function ApplyUpdates(j: SettingsJson, updates: seq<(string, bool)>, now: int): (r: (bool, SettingsJson))
    ensures r.0 <==> exists i | 0 <= i < |updates| :: updates[i].0 in j.displayFields
    ensures r.1.displayFields.Keys == j.displayFields.Keys
    ensures r.1.(displayFields := j.displayFields, updatedAt := j.updatedAt) == j
    ensures r.0 ==> r.1.updatedAt == now
    ensures !r.0 ==> r.1 == j
    decreases |updates|
  {
    if updates == [] then (false, j)
    else
      var n := |updates| - 1;
      var p := ApplyUpdates(j, updates[..n], now);
      var q := SetField(p.1, updates[n].0, updates[n].1, now);
      assert forall i | 0 <= i < n :: updates[..n][i] == updates[i];
      (p.0 || q.0, q.1)
  }

  /** After a batch of updates an untouched field keeps its value and each known field takes its last update. */
  lemma {:induction false} LastUpdateWins(j: SettingsJson, updates: seq<(string, bool)>, now: int)
    ensures var f := ApplyUpdates(j, updates, now).1.displayFields;
      && (forall k | k in j.displayFields && (forall i | 0 <= i < |updates| :: updates[i].0 != k) ::
            f[k] == j.displayFields[k])
      && (forall i | 0 <= i < |updates| && updates[i].0 in j.displayFields
                     && (forall m | i < m < |updates| :: updates[m].0 != updates[i].0) ::
            f[updates[i].0] == updates[i].1)
  {
    UntouchedKept(j, updates, now);
    LastWriteKept(j, updates, now);
  }

  /** A field no update names keeps its value. */
  lemma {:induction false} UntouchedKept(j: SettingsJson, updates: seq<(string, bool)>, now: int)
    ensures var f := ApplyUpdates(j, updates, now).1.displayFields;
      forall k | k in j.displayFields && (forall i | 0 <= i < |updates| :: updates[i].0 != k) ::
        f[k] == j.displayFields[k]
    decreases |updates|
  {
    if updates != [] {
      var n := |updates| - 1;
      var init := updates[..n];
      UntouchedKept(j, init, now);
      var pj := ApplyUpdates(j, init, now).1;
      var q := SetField(pj, updates[n].0, updates[n].1, now);
      assert ApplyUpdates(j, updates, now).1 == q.1;
      var p := pj.displayFields;
      var f := q.1.displayFields;
      forall k | k in j.displayFields && (forall i | 0 <= i < |updates| :: updates[i].0 != k)
        ensures f[k] == j.displayFields[k]
      {
        assert updates[n].0 != k;
        assert forall i | 0 <= i < |init| :: init[i] == updates[i];
        assert p[k] == j.displayFields[k];
      }
    }
  }

  /** A known field takes the value of the last update that names it. */
  lemma {:induction false} LastWriteKept(j: SettingsJson, updates: seq<(string, bool)>, now: int)
    ensures var f := ApplyUpdates(j, updates, now).1.displayFields;
      forall i | 0 <= i < |updates| && updates[i].0 in j.displayFields
                 && (forall m | i < m < |updates| :: updates[m].0 != updates[i].0) ::
        f[updates[i].0] == updates[i].1
    decreases |updates|
  {
    if updates != [] {
      var n := |updates| - 1;
      var init := updates[..n];
      LastWriteKept(j, init, now);
      var pj := ApplyUpdates(j, init, now).1;
      var q := SetField(pj, updates[n].0, updates[n].1, now);
      assert ApplyUpdates(j, updates, now).1 == q.1;
      var p := pj.displayFields;
      var f := q.1.displayFields;
      assert p.Keys == j.displayFields.Keys;
      forall i | 0 <= i < |updates| && updates[i].0 in j.displayFields
                 && (forall m | i < m < |updates| :: updates[m].0 != updates[i].0)
        ensures f[updates[i].0] == updates[i].1
      {
        if i < n {
          assert init[i] == updates[i];
          assert forall m | i < m < |init| :: init[m] == updates[m];
          assert p[init[i].0] == init[i].1;
          assert updates[n].0 != updates[i].0;
        }
      }
    }
  }

  /** `resetToDefaults`: the default preferences, keeping the user and the creation time. */
  function ResetState(j: SettingsJson, now: int): (r: SettingsJson)
  {
    j.(language := DefaultLanguage, displayFields := DefaultDisplayFields,
       notifications := true, compactMode := false, updatedAt := now)
  }

  /** A reset gives what a new object for the same user and creation time would hold. */
  lemma ResetIsFreshDefaults(j: SettingsJson, now: int)
    ensures ResetState(j, now) == Construct(j.userId, NoInput.(createdAt := Some(j.createdAt)), now)
    ensures WellFormed(ResetState(j, now))
  {
    DescriptionsMatchFields();
  }

  /** The names among `names` whose flag in `fields` is on, in the order of `names`. */
  function EnabledAmong(names: seq<string>, fields: map<string, bool>): (r: seq<string>)
    ensures forall x | x in r :: x in names && x in fields && fields[x]
    ensures forall x | x in names && x in fields && fields[x] :: x in r
    ensures |r| <= |names|
    ensures Distinct(names) ==> Distinct(r)
  {
    if names == [] then []
    else
      var rest := EnabledAmong(names[1..], fields);
      assert Distinct(names) ==> names[0] !in names[1..];
      if names[0] in fields && fields[names[0]] then [names[0]] + rest else rest
  }

  /** `getEnabledFields`: the keys of `displayFields`, in order, whose flag is truthy. */
  function EnabledFields(fields: map<string, bool>): (r: seq<string>)
  {
    EnabledAmong(FieldNames, fields)
  }

  /** `isFieldEnabled`: `displayFields[name] === true`. */
  predicate IsFieldEnabled(fields: map<string, bool>, name: string) {
    name in fields && fields[name]
  }

  /** The enabled list holds each enabled field once, and nothing else. */
  lemma EnabledFieldsExactly(fields: map<string, bool>)
    requires fields.Keys == Elements(FieldNames)
    ensures Distinct(EnabledFields(fields))
    ensures forall name :: name in EnabledFields(fields) <==> IsFieldEnabled(fields, name)
  {
    FieldNamesDistinct();
  }

  /** `getEnabledFieldsCount` is the number of flags that are on, at most thirteen. */
  lemma EnabledCount(fields: map<string, bool>)
    requires fields.Keys == Elements(FieldNames)
    ensures |EnabledFields(fields)| == |set k | k in fields && fields[k]|
    ensures |EnabledFields(fields)| <= 13
  {
    EnabledFieldsExactly(fields);
    var r := EnabledFields(fields);
    assert Elements(r) == set k | k in fields && fields[k];
    DistinctCardinality(r);
  }

  datatype SettingsSummary = SettingsSummary(
    language: string, enabledFields: nat, totalFields: nat, compactMode: string, notifications: string)

  /** `getSummary`. */
  function Summary(j: SettingsJson): (s: SettingsSummary)
    ensures s.language == (if j.language == "he" then "עברית" else "English")
    ensures s.totalFields == |j.displayFields|
  {
    SettingsSummary(
      if j.language == "he" then "עברית" else "English",
      |EnabledFields(j.displayFields)|,
      |j.displayFields|,
      if j.compactMode then "מופעל" else "כבוי",
      if j.notifications then "מופעל" else "כבוי")
  }

  /** For every settings object the summary counts thirteen fields, at most all of them enabled. */
  lemma SummaryBounds(j: SettingsJson)
    requires WellFormed(j)
    ensures Summary(j).totalFields == 13
    ensures Summary(j).enabledFields <= Summary(j).totalFields
    ensures Summary(j).enabledFields == |set k | k in j.displayFields && j.displayFields[k]|
  {
    FieldNamesDistinct();
    DistinctCardinality(FieldNames);
    EnabledCount(j.displayFields);
  }

  class UserSettings {
    var userId: nat
    var language: string
    var displayFields: map<string, bool>
    var notifications: bool
    var compactMode: bool
    var createdAt: int
    var updatedAt: int

    ghost predicate Valid()
      reads this
    {
      WellFormed(ToJson())
    }

    /** `toJSON`: the object's properties as a record. */
    function ToJson(): SettingsJson
      reads this
    {
      SettingsJson(userId, language, displayFields, notifications, compactMode, createdAt, updatedAt)
    }

    constructor(userId: nat, input: SettingsInput, now: int)
      ensures Valid()
      ensures ToJson() == Construct(userId, input, now)
    {
      var j := Construct(userId, input, now);
      this.userId := j.userId;
      language := j.language;
      displayFields := j.displayFields;
      notifications := j.notifications;
      compactMode := j.compactMode;
      createdAt := j.createdAt;
      updatedAt := j.updatedAt;
    }

    /** `UserSettings.fromJSON`. */
    static method FromJson(data: SettingsJson, now: int) returns (s: UserSettings)
      ensures fresh(s) && s.Valid()
      ensures s.ToJson() == FromJsonState(data, now)
    {
      s := new UserSettings(data.userId,
        SettingsInput(Some(data.language), Some(data.displayFields), Some(data.notifications),
                      Some(data.compactMode), Some(data.createdAt)),
        now);
    }

    /** `updateDisplayField`: only an existing flag is assigned, and only then the update time. */
    method UpdateDisplayField(name: string, enabled: bool, now: int) returns (ok: bool)
      requires Valid()
      modifies this
      ensures Valid()
      ensures (ok, ToJson()) == SetField(old(ToJson()), name, enabled, now)
    {
      if name in displayFields {
        displayFields := displayFields[name := enabled];
        updatedAt := now;
        return true;
      }
      return false;
    }

    /** `resetToDefaults`. */
    method ResetToDefaults(now: int)
      modifies this
      ensures Valid()
      ensures ToJson() == ResetState(old(ToJson()), now)
    {
      ResetIsFreshDefaults(ToJson(), now);
      language := DefaultLanguage;
      displayFields := DefaultDisplayFields;
      notifications := true;
      compactMode := false;
      updatedAt := now;
    }
  }
}
