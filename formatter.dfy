/**
 * The message formatter (src/utils/messageFormatter.js): the texts and
 * inline keyboards the bot sends.  A message is its text, whether it is
 * parsed as Markdown, and its rows of buttons; a button is its label and
 * the callback data Telegram sends back when it is pressed.
 */
module Formatter {
  import opened Text
  import opened Collections
  import opened Events
  import Router
  import Settings
  import Vehicles

  datatype Button = Button(text: string, callbackData: string)

  datatype Message = Message(text: string, markdown: bool, keyboard: seq<seq<Button>>)

  // The button labels of the constructor's `buttons` table.
  const NewSearchLabel := "🔍 חיפוש חדש"
  const SettingsLabel := "⚙️ הגדרות"
  const HelpLabel := "❓ עזרה"
  const BackLabel := "◀️ חזור"
  const SaveLabel := "💾 שמור"
  const RetryLabel := "🔄 נסה שוב"
  const MainMenuLabel := "🏠 תפריט ראשי"

  // The templates the formatting functions below use.
  const NoResultsText := "❌ לא נמצאו נתונים עבור מספר לוחית רישוי זה"
  const InvalidLicenseText := "⚠️ מספר לוחית רישוי לא תקין\n\nאנא הכניסו מספר של 7-8 ספרות"
  const ErrorText := "❌ אירעה שגיאה\n\nאנא נסו שוב מאוחר יותר"

  /** Every callback on a keyboard is recognised by the router, whatever the ids. */
  ghost predicate AllRoutable(keyboard: seq<seq<Button>>) {
    forall i, j, ctx | 0 <= i < |keyboard| && 0 <= j < |keyboard[i]| ::
      Router.CallbackResult(keyboard[i][j].callbackData, ctx).category != Router.UnrecognizedCallback
  }

  /** The exact tokens of the router route to their own actions. */
  lemma TokensRoute(d: string, ctx: Router.Context)
    requires d in {"help", "settings", "new_search", "main_menu", "retry_search", "save_fields"}
    ensures Router.CallbackResult(d, ctx).category != Router.UnrecognizedCallback
  {
  }

  // ---------------------------------------------------------------------
  // No results and errors
  // ---------------------------------------------------------------------

  /** `formatNoResultsMessage`. */
  const NoResultsMessage :=
    Message(NoResultsText, false, [[Button(NewSearchLabel, "new_search"), Button(HelpLabel, "help")]])

  /** The text `formatErrorMessage` chooses for an error type. */
  function ErrorMessageText(errorType: string): (t: string)
    ensures errorType == "INVALID_LICENSE_PLATE" ==> t == InvalidLicenseText
    ensures (errorType !in {"INVALID_LICENSE_PLATE", "NETWORK_TIMEOUT", "NETWORK_ERROR",
      "RATE_LIMIT_EXCEEDED", "API_SERVER_ERROR"}) ==> t == ErrorText
  {
    match errorType
    case "INVALID_LICENSE_PLATE" => InvalidLicenseText
    case "NETWORK_TIMEOUT" => "⏱️ החיפוש לוקח יותר זמן מהצפוי\n\nאנא נסו שוב"
    case "NETWORK_ERROR" => "🌐 בעיית חיבור לאינטרנט\n\nבדקו את החיבור ונסו שוב"
    case "RATE_LIMIT_EXCEEDED" => "⏳ יותר מדי בקשות\n\nאנא המתינו מעט ונסו שוב"
    case "API_SERVER_ERROR" => "🔧 השירות אינו זמין כרגע\n\nאנא נסו שוב מאוחר יותר"
    case _ => ErrorText
  }

  /**
   * `formatErrorMessage`: a retry row for every type but an invalid plate,
   * then always the new-search and help row.
   */
  function FormatErrorMessage(errorType: string): (m: Message)
    ensures m.text == ErrorMessageText(errorType) && !m.markdown
    ensures |m.keyboard| == (if errorType == "INVALID_LICENSE_PLATE" then 1 else 2)
    ensures m.keyboard[|m.keyboard| - 1] == [Button(NewSearchLabel, "new_search"), Button(HelpLabel, "help")]
    ensures errorType != "INVALID_LICENSE_PLATE" <==>
      (exists i, j | 0 <= i < |m.keyboard| && 0 <= j < |m.keyboard[i]| :: m.keyboard[i][j].callbackData == "retry_search")
    ensures AllRoutable(m.keyboard)
  {
    var last := [Button(NewSearchLabel, "new_search"), Button(HelpLabel, "help")];
    var rows := if errorType == "INVALID_LICENSE_PLATE" then [last] else [[Button(RetryLabel, "retry_search")], last];
    forall i, j, ctx | 0 <= i < |rows| && 0 <= j < |rows[i]|
      ensures Router.CallbackResult(rows[i][j].callbackData, ctx).category != Router.UnrecognizedCallback
    {
      TokensRoute(rows[i][j].callbackData, ctx);
    }
    assert errorType != "INVALID_LICENSE_PLATE" ==> rows[0][0].callbackData == "retry_search";
    Message(ErrorMessageText(errorType), false, rows)
  }

  // ---------------------------------------------------------------------
  // The display-fields menu
  // ---------------------------------------------------------------------

  /** `✅` for a field that is on, `❌` otherwise. */
  function Status(fields: map<string, bool>, name: string): (c: char)
    ensures c == '✅' <==> Settings.IsFieldEnabled(fields, name)
  {
    if Settings.IsFieldEnabled(fields, name) then '✅' else '❌'
  }

  /** A field name is a non-empty run of ASCII letters. */
  predicate IsFieldName(s: string) {
    s != [] && forall i | 0 <= i < |s| :: 'a' <= s[i] <= 'z' || 'A' <= s[i] <= 'Z'
  }

  lemma FieldNamesAreNames()
    ensures forall i | 0 <= i < |Settings.FieldNames| :: IsFieldName(Settings.FieldNames[i])
  {
  }

  /** The button for the field at position `i` of the description list. */
  function FieldButton(fields: map<string, bool>, i: nat): (b: Button)
    requires i < |Settings.FieldDescriptions|
  {
    var (name, description) := Settings.FieldDescriptions[i];
    Button([Status(fields, name)] + " " + description, Router.TogglePrefix + name)
  }

  /**
   * `formatFieldsMenu`: one row per field description, in order, each
   * marked with the field's status and toggling that field, then the save
   * and back row.
   */
  function FormatFieldsMenu(fields: map<string, bool>): (m: Message)
    ensures m.markdown
    ensures |m.keyboard| == |Settings.FieldNames| + 1
    ensures forall i | 0 <= i < |Settings.FieldNames| ::
      && |m.keyboard[i]| == 1
      && m.keyboard[i][0].callbackData == Router.TogglePrefix + Settings.FieldNames[i]
      && m.keyboard[i][0].text != []
      && (m.keyboard[i][0].text[0] == '✅' <==> Settings.IsFieldEnabled(fields, Settings.FieldNames[i]))
    ensures m.keyboard[|Settings.FieldNames|] == [Button(SaveLabel, "save_fields"), Button(BackLabel, "settings")]
  {
    Settings.DescriptionsMatchFields();
    var rows := seq(|Settings.FieldDescriptions|, i requires 0 <= i < |Settings.FieldDescriptions| => [FieldButton(fields, i)]);
    Message(
      "📊 **בחירת שדות תצוגה**\n\n" + "בחרו אילו פרטים להציג בתוצאות החיפוש:\n\n",
      true,
      rows + [[Button(SaveLabel, "save_fields"), Button(BackLabel, "settings")]])
  }

  /** Pressing the toggle of a field routes back to a toggle of that same field. */
  lemma FieldsMenuRoutesBack(fields: map<string, bool>, i: nat, ctx: Router.Context)
    requires i < |Settings.FieldNames|
    ensures Router.CallbackResult(FormatFieldsMenu(fields).keyboard[i][0].callbackData, ctx) ==
      Router.RoutingResult(Router.FieldToggle, Router.HandleToggleFieldCallback, Router.FieldData(Settings.FieldNames[i], ctx))
  {
    var name := Settings.FieldNames[i];
    FieldNamesAreNames();
    assert IsFieldName(name);
    assert forall k | 0 <= k < |name| :: !IsLineTerminator(name[k]);
    Router.ToggleFieldRoute(name, ctx);
  }

  /** Every button of the fields menu is recognised by the router. */
  lemma FieldsMenuRoutable(fields: map<string, bool>)
    ensures AllRoutable(FormatFieldsMenu(fields).keyboard)
  {
    var kb: seq<seq<Button>> := FormatFieldsMenu(fields).keyboard;
    forall i: int, j: int, ctx: Router.Context | 0 <= i < |kb| && 0 <= j < |kb[i]|
      ensures Router.CallbackResult(kb[i][j].callbackData, ctx).category != Router.UnrecognizedCallback
    {
      if i < |Settings.FieldNames| {
        FieldsMenuRoutesBack(fields, i, ctx);
      } else {
        TokensRoute(kb[i][j].callbackData, ctx);
      }
    }
  }

  // ---------------------------------------------------------------------
  // The language menu
  // ---------------------------------------------------------------------

  /** `formatLanguageMenu`: Hebrew and English, the current one marked, then back. */
  function FormatLanguageMenu(language: string): (m: Message)
    ensures m.markdown && |m.keyboard| == 2 && |m.keyboard[0]| == 2
    ensures m.keyboard[0][0].callbackData == Router.LanguagePrefix + "he"
    ensures m.keyboard[0][1].callbackData == Router.LanguagePrefix + "en"
    ensures m.keyboard[0][0].text != [] && (m.keyboard[0][0].text[0] == '✅' <==> language == "he")
    ensures m.keyboard[0][1].text != [] && (m.keyboard[0][1].text[0] == '✅' <==> language == "en")
    ensures m.keyboard[1] == [Button(BackLabel, "settings")]
  {
    Message(
      "🌐 **בחירת שפה**\n\n" + "בחרו את שפת הבוט:\n\n",
      true,
      [ [Button(if language == "he" then "✅ עברית" else "עברית", "set_language_he"),
         Button(if language == "en" then "✅ English" else "English", "set_language_en")],
        [Button(BackLabel, "settings")] ])
  }

  /** Each language button routes to setting that language. */
  lemma LanguageMenuRoutesBack(language: string, ctx: Router.Context)
    ensures Router.CallbackResult(FormatLanguageMenu(language).keyboard[0][0].callbackData, ctx) ==
      Router.RoutingResult(Router.LanguageSet, Router.HandleSetLanguageCallback, Router.LanguageData("he", ctx))
    ensures Router.CallbackResult(FormatLanguageMenu(language).keyboard[0][1].callbackData, ctx) ==
      Router.RoutingResult(Router.LanguageSet, Router.HandleSetLanguageCallback, Router.LanguageData("en", ctx))
  {
    Router.SetLanguageRoute("he", ctx);
    Router.SetLanguageRoute("en", ctx);
  }

  // ---------------------------------------------------------------------
  // Vehicle results
  // ---------------------------------------------------------------------

  /** The keyboard under a search result. */
  const ResultsKeyboard: seq<seq<Button>> := [
    [Button(NewSearchLabel, "new_search"), Button(SettingsLabel, "settings")],
    [Button(HelpLabel, "help"), Button(MainMenuLabel, "main_menu")]]

  lemma ResultsKeyboardRoutable()
    ensures AllRoutable(ResultsKeyboard)
  {
    forall i, j, ctx | 0 <= i < |ResultsKeyboard| && 0 <= j < |ResultsKeyboard[i]|
      ensures Router.CallbackResult(ResultsKeyboard[i][j].callbackData, ctx).category != Router.UnrecognizedCallback
    {
      TokensRoute(ResultsKeyboard[i][j].callbackData, ctx);
    }
  }

  /** The bold title and plate that open a result. */
  function ResultHeader(v: Vehicles.VehicleData): string {
    "🚗 **" + Vehicles.Title(v) + "**\n" + "🔢 לוחית רישוי: **" + v.licensePlate + "**\n\n"
  }

  /** The vehicle lines, left out when no field is shown. */
  function ResultBody(v: Vehicles.VehicleData, fields: map<string, bool>, dateText: string -> string): (t: string)
    ensures t == "" <==> Vehicles.ShownAmong(Vehicles.DisplayOrder, fields, v) == []
  {
    var info := Vehicles.HebrewDisplay(fields, v, dateText);
    Vehicles.HebrewDisplayLines(fields, v, dateText);
    assert info != "" by {
      if info != Vehicles.NoData {
        var shown := Vehicles.ShownAmong(Vehicles.DisplayOrder, fields, v);
        var lines := seq(|shown|, i requires 0 <= i < |shown| => Vehicles.Line(v, shown[i], dateText));
        Vehicles.LineHead(v, shown[0], dateText);
        JoinPrefix(lines, "\n");
      }
    }
    if info != Vehicles.NoData then info else ""
  }

  const PermitYes := "♿ **יש תו נכה תקף**"
  const PermitNo := "♿ אין תו נכה"

  /** The disability-permit line, present only when the user shows that field. */
  function PermitSection(fields: map<string, bool>, hasPermit: bool): (t: string)
    ensures t == "" <==> !Settings.IsFieldEnabled(fields, "disabilityPermit")
    ensures t != "" ==> t == "\n\n" + (if hasPermit then PermitYes else PermitNo)
  {
    if Settings.IsFieldEnabled(fields, "disabilityPermit") then "\n\n" + (if hasPermit then PermitYes else PermitNo) else ""
  }

  /**
   * `formatVehicleResults`: the no-results message for a missing or invalid
   * record; otherwise header, shown fields, permit line and the search time
   * (`timeText`, the locale rendering of the clock), in Markdown.
   */
  function FormatVehicleResults(
    vehicle: Option<Vehicles.VehicleData>, fields: map<string, bool>, hasPermit: bool,
    dateText: string -> string, timeText: string): (m: Message)
    ensures vehicle.None? || !Vehicles.IsValid(vehicle.value) ==> m == NoResultsMessage
    ensures vehicle.Some? && Vehicles.IsValid(vehicle.value) ==>
      && m.markdown
      && m.keyboard == ResultsKeyboard
      && ResultHeader(vehicle.value) <= m.text
      && |timeText| <= |m.text| && m.text[|m.text| - |timeText|..] == timeText
  {
    if vehicle.None? || !Vehicles.IsValid(vehicle.value) then NoResultsMessage
    else
      var v := vehicle.value;
      var tail := ResultBody(v, fields, dateText) + PermitSection(fields, hasPermit) + "\n\n🕐 ";
      var text := ResultHeader(v) + (tail + timeText);
      assert text[..|ResultHeader(v)|] == ResultHeader(v);
      assert (tail + timeText)[|tail|..] == timeText;
      assert text[|text| - |timeText|..] == (tail + timeText)[|tail|..];
      Message(text, true, ResultsKeyboard)
  }

  // ---------------------------------------------------------------------
  // Truncation and escaping
  // ---------------------------------------------------------------------

  /**
   * `truncateText`: the text itself when it is empty or fits; otherwise its
   * first `maxLength - 3` characters (none when that is negative) and `...`.
   */
  function TruncateText(text: string, maxLength: int): (r: string)
    ensures text == "" || |text| <= maxLength ==> r == text
    ensures text != "" && |text| > maxLength ==>
      && |r| == (if maxLength < 3 then 3 else maxLength)
      && r[|r| - 3..] == "..."
      && r[..|r| - 3] <= text
  {
    if text == "" || |text| <= maxLength then text
    else
      var keep := if maxLength - 3 < 0 then 0 else maxLength - 3;
      var r := text[..keep] + "...";
      assert r[..keep] == text[..keep];
      r
  }

  /** With room for the ellipsis, a truncated text fits and truncating again changes nothing. */
  lemma TruncateFits(text: string, maxLength: int)
    requires maxLength >= 3
    ensures |TruncateText(text, maxLength)| <= maxLength
    ensures TruncateText(TruncateText(text, maxLength), maxLength) == TruncateText(text, maxLength)
  {
  }

  /** The characters the escaping expression `[_*[\]()~`>#+=|{}.!-]` matches. */
  predicate IsMarkdownSpecial(c: char) {
    c in "_*[]()~`>#+=|{}.!-"
  }

  /** Each special character preceded by a backslash, everything else kept. */
  function Escape(s: string): (r: string)
    ensures |r| >= |s|
  {
    if s == [] then [] else (if IsMarkdownSpecial(s[0]) then ['\\', s[0]] else [s[0]]) + Escape(s[1..])
  }

  /** The inverse reading: a backslash before a special character is dropped. */
  function Unescape(s: string): (r: string)
  {
    if s == [] then []
    else if |s| >= 2 && s[0] == '\\' && IsMarkdownSpecial(s[1]) then [s[1]] + Unescape(s[2..])
    else [s[0]] + Unescape(s[1..])
  }

  /** An escaped text never starts with a special character. */
  lemma EscapeHead(s: string)
    ensures Escape(s) == [] || !IsMarkdownSpecial(Escape(s)[0])
  {
  }

  /** Escaping is undone by unescaping, so no two texts escape alike. */
  lemma {:induction false} UnescapeEscape(s: string)
    ensures Unescape(Escape(s)) == s
  {
    if s != [] {
      var rest := Escape(s[1..]);
      UnescapeEscape(s[1..]);
      EscapeHead(s[1..]);
      if IsMarkdownSpecial(s[0]) {
        assert (['\\', s[0]] + rest)[2..] == rest;
      } else {
        assert ([s[0]] + rest)[1..] == rest;
      }
      assert s == [s[0]] + s[1..];
    }
  }

  lemma {:induction false} EscapeAppend(a: string, b: string)
    ensures Escape(a + b) == Escape(a) + Escape(b)
  {
    if a == [] {
      assert a + b == b;
    } else {
      assert (a + b)[1..] == a[1..] + b;
      EscapeAppend(a[1..], b);
    }
  }

  /** White space is never special, so a run of it escapes to itself. */
  lemma {:induction false} EscapeSpace(s: string)
    requires AllSpace(s)
    ensures Escape(s) == s
  {
    if s != [] {
      assert !IsMarkdownSpecial(s[0]);
      EscapeSpace(s[1..]);
      assert s == [s[0]] + s[1..];
    }
  }

  /** An escaped text ends with the last character of the original. */
  lemma {:induction false} EscapeEnds(s: string)
    requires s != []
    ensures Escape(s) != [] && Escape(s)[|Escape(s)| - 1] == s[|s| - 1]
  {
    if |s| > 1 {
      EscapeEnds(s[1..]);
    }
  }

  /** `sanitizeText`: `''` for a missing, empty or non-string text, else the escaped text, trimmed. */
  function SanitizeText(text: JsField): (r: string)
    ensures !Truthy(text) || !text.Str? ==> r == ""
    ensures r == [] || (!IsSpace(r[0]) && !IsSpace(r[|r| - 1]))
  {
    if !text.Str? || text.s == "" then ""
    else
      var r := Trim(Escape(text.s));
      TrimSlice(Escape(text.s));
      r
  }

  /** Escaping and trimming commute: white space is never special and never produced. */
  lemma EscapeTrim(s: string)
    ensures Trim(Escape(s)) == Escape(Trim(s))
  {
    var p, q := TrimParts(s);
    var t := Trim(s);
    EscapeAppend(p + t, q);
    EscapeAppend(p, t);
    EscapeSpace(p);
    EscapeSpace(q);
    var e := Escape(t);
    assert Escape(s) == p + e + q;
    if t != [] {
      TrimSlice(s);
      EscapeHead(t);
      EscapeEnds(t);
      assert !IsSpace(e[0]) by {
        if IsMarkdownSpecial(t[0]) {
          assert e[0] == '\\';
        } else {
          assert e[0] == t[0];
        }
      }
    }
    TrimAround(p, e, q);
  }

  /** Sanitizing escapes exactly the trimmed text, so unescaping gives the trimmed text back. */
  lemma SanitizeRoundTrip(s: string)
    ensures SanitizeText(Str(s)) == Escape(Trim(s))
    ensures Unescape(SanitizeText(Str(s))) == Trim(s)
  {
    EscapeTrim(s);
    UnescapeEscape(Trim(s));
  }
}
