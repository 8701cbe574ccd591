/**
 * The message router (src/utils/messageRouter.js): an ordered chain of
 * pattern tests that turns an inbound text message or callback query into a
 * `{type, action, data}` record.  Whatever throws on the way (a missing
 * `from`, a text that is not a string) is caught and becomes an `ERROR`
 * record, so routing is total.
 */
module Router {
  import opened Text
  import opened Events

  /** The `type` of a routing result. */
  datatype Category =
    | Command | LicensePlateSearch | InvalidLicensePlate | UnrecognizedText
    | Callback | Settings | FieldToggle | FieldSave | LanguageSet | UnrecognizedCallback
    | Unsupported | Error

  /** The `action` of a routing result: the name of the handler the bot dispatches to. */
  datatype Action =
    | HandleStartCommand | HandleHelpCommand | HandleSettingsCommand
    | HandleLicensePlateSearch | HandleInvalidLicensePlate | HandleUnrecognizedText
    | HandleHelpCallback | HandleSettingsCallback | HandleNewSearchCallback | HandleMainMenuCallback
    | HandleCancelSearchCallback | HandleRetrySearchCallback
    | HandleFieldsSettingsCallback | HandleLanguageSettingsCallback | HandleResetSettingsCallback
    | HandleToggleFieldCallback | HandleSaveFieldsCallback | HandleSetLanguageCallback
    | HandleUnrecognizedCallback | SendUnsupportedMessage | HandleRoutingError

  /** The action as the string the source passes around. */
  function ActionName(a: Action): (n: string)
  {
    match a
    case HandleStartCommand => "handleStartCommand"
    case HandleHelpCommand => "handleHelpCommand"
    case HandleSettingsCommand => "handleSettingsCommand"
    case HandleLicensePlateSearch => "handleLicensePlateSearch"
    case HandleInvalidLicensePlate => "handleInvalidLicensePlate"
    case HandleUnrecognizedText => "handleUnrecognizedText"
    case HandleHelpCallback => "handleHelpCallback"
    case HandleSettingsCallback => "handleSettingsCallback"
    case HandleNewSearchCallback => "handleNewSearchCallback"
    case HandleMainMenuCallback => "handleMainMenuCallback"
    case HandleCancelSearchCallback => "handleCancelSearchCallback"
    case HandleRetrySearchCallback => "handleRetrySearchCallback"
    case HandleFieldsSettingsCallback => "handleFieldsSettingsCallback"
    case HandleLanguageSettingsCallback => "handleLanguageSettingsCallback"
    case HandleResetSettingsCallback => "handleResetSettingsCallback"
    case HandleToggleFieldCallback => "handleToggleFieldCallback"
    case HandleSaveFieldsCallback => "handleSaveFieldsCallback"
    case HandleSetLanguageCallback => "handleSetLanguageCallback"
    case HandleUnrecognizedCallback => "handleUnrecognizedCallback"
    case SendUnsupportedMessage => "sendUnsupportedMessage"
    case HandleRoutingError => "handleRoutingError"
  }

  /** The `type` each action is always paired with. */
  function CategoryOf(a: Action): (c: Category)
  {
    match a
    case HandleStartCommand | HandleHelpCommand | HandleSettingsCommand => Command
    case HandleLicensePlateSearch => LicensePlateSearch
    case HandleInvalidLicensePlate => InvalidLicensePlate
    case HandleUnrecognizedText => UnrecognizedText
    case HandleHelpCallback | HandleSettingsCallback | HandleNewSearchCallback
      | HandleMainMenuCallback | HandleCancelSearchCallback | HandleRetrySearchCallback => Callback
    case HandleFieldsSettingsCallback | HandleLanguageSettingsCallback | HandleResetSettingsCallback => Settings
    case HandleToggleFieldCallback => FieldToggle
    case HandleSaveFieldsCallback => FieldSave
    case HandleSetLanguageCallback => LanguageSet
    case HandleUnrecognizedCallback => UnrecognizedCallback
    case SendUnsupportedMessage => Unsupported
    case HandleRoutingError => Error
  }

  /** What the router's code throws before it can build a result. */
  datatype Fault =
    | TextNotString    // `message.text.trim` on a non-string
    | SenderMissing    // `message.from.id` with no `from`
    | ChatMissing      // `message.chat.id` with no `chat`
    | OriginMissing    // `callbackQuery.message.chat` with no `message`
    | DataNotString    // `data.match` on a non-string

  /** The identifiers a callback result carries. */
  datatype Context = Context(userId: int, chatId: int, messageId: Option<int>, callbackQueryId: Option<string>)

  /** The `data` of a routing result, one shape per group of actions. */
  datatype Payload =
    | CommandData(userId: int, chatId: int)
    | PlateData(licensePlate: string, originalText: string, userId: int, chatId: int, messageId: Option<int>)
    | InvalidPlateData(invalidInput: string, userId: int, chatId: int)
    | TextData(text: string, userId: int, chatId: int)
    | CallbackData(ctx: Context)
    | FieldData(fieldName: string, ctx: Context)
    | LanguageData(language: string, ctx: Context)
    | UnrecognizedCallbackData(callbackData: string, ctx: Context)
    | UnsupportedData(messageType: string)
    | ErrorData(error: Fault, originalMessage: Event)

  datatype RoutingResult = RoutingResult(category: Category, action: Action, data: Payload)

  /** A computation that returns a value or throws a fault. */
  datatype Thrown<T> = Ok(value: T) | Throw(fault: Fault)

  // ---------------------------------------------------------------------
  // License-plate helpers
  // ---------------------------------------------------------------------

  /** `/^[\d\s\-\.]{7,11}$/`: 7 to 11 characters, each a digit, white space, `-` or `.`. */
  predicate IsPlateShape(t: string) {
    7 <= |t| <= 11 && forall i | 0 <= i < |t| :: IsDigit(t[i]) || IsSpace(t[i]) || t[i] == '-' || t[i] == '.'
  }

  /** `replace(/[\s\-\.]/g, '')`. */
  function RemoveSeparators(s: string): (r: string)
    ensures |r| <= |s|
  {
    if s == [] then []
    else (if IsSpace(s[0]) || s[0] == '-' || s[0] == '.' then [] else [s[0]]) + RemoveSeparators(s[1..])
  }

  lemma {:induction false} DigitsIgnoreSeparators(s: string)
    ensures Digits(RemoveSeparators(s)) == Digits(s)
  {
    if s != [] {
      DigitsIgnoreSeparators(s[1..]);
      var head := if IsSpace(s[0]) || s[0] == '-' || s[0] == '.' then [] else [s[0]];
      DigitsAppend(head, RemoveSeparators(s[1..]));
    }
  }

  /** `_cleanLicensePlate`: the replace chain, then `trim`; `''` for a falsy or non-string input. */
  function CleanLicensePlate(plate: JsField): (r: string)
    ensures plate.Str? ==> r == Digits(plate.s)
    ensures !plate.Str? ==> r == ""
  {
    if !Truthy(plate) || !plate.Str? then ""
    else
      var r := Trim(Digits(RemoveSeparators(plate.s)));
      DigitsIgnoreSeparators(plate.s);
      TrimDigits(Digits(plate.s));
      r
  }

  /** Cleaning a cleaned plate changes nothing. */
  lemma CleanIdempotent(plate: JsField)
    ensures CleanLicensePlate(Str(CleanLicensePlate(plate))) == CleanLicensePlate(plate)
  {
    DigitsIdempotent(if plate.Str? then plate.s else "");
  }

  /** `_isValidLicensePlate`: a non-empty string with 7 or 8 digits. */
  function IsValidLicensePlate(plate: JsField): (b: bool)
    ensures b <==> plate.Str? && 7 <= |Digits(plate.s)| <= 8
  {
    Truthy(plate) && plate.Str? && 7 <= |Digits(plate.s)| <= 8
  }

  /** `isCommand`: a non-empty string starting with `/`. */
  function IsCommand(text: JsField): (b: bool)
    ensures b ==> text.Str? && |text.s| > 0 && text.s[0] == '/'
    ensures text.Str? && |text.s| > 0 && text.s[0] == '/' ==> b
  {
    Truthy(text) && text.Str? && text.s[0] == '/'
  }

  /** `isPotentialLicensePlate`: the plate shape, after trimming. */
  function IsPotentialLicensePlate(text: JsField): (b: bool)
    ensures b <==> text.Str? && IsPlateShape(Trim(text.s))
  {
    Truthy(text) && text.Str? && IsPlateShape(Trim(text.s))
  }

  // ---------------------------------------------------------------------
  // Text messages
  // ---------------------------------------------------------------------

  /** The action chosen for a trimmed text, before the ids are read. */
  function TextAction(t: string): (a: Action)
    ensures CategoryOf(a) in {Command, LicensePlateSearch, InvalidLicensePlate, UnrecognizedText}
  {
    if t == "/start" then HandleStartCommand
    else if t == "/help" then HandleHelpCommand
    else if t == "/settings" then HandleSettingsCommand
    else if IsPlateShape(t) then
      (if IsValidLicensePlate(Str(CleanLicensePlate(Str(t)))) then HandleLicensePlateSearch else HandleInvalidLicensePlate)
    else HandleUnrecognizedText
  }

  /** `message.from.id` then `message.chat.id`, in that order. */
  function SenderAndChat(m: Event): (r: Thrown<(int, int)>)
    ensures r.Ok? <==> m.from.Some? && m.chat.Some?
    ensures r.Ok? ==> r.value == (m.from.value.id, m.chat.value.id)
    ensures r.Throw? ==> r.fault == (if m.from.None? then SenderMissing else ChatMissing)
  {
    if m.from.None? then Throw(SenderMissing)
    else if m.chat.None? then Throw(ChatMissing)
    else Ok((m.from.value.id, m.chat.value.id))
  }

  /** `_routeTextMessage`. */
  function RouteText(m: Event): (r: Thrown<RoutingResult>)
    requires Truthy(m.text)
    ensures r.Ok? <==> m.text.Str? && m.from.Some? && m.chat.Some?
    ensures r.Throw? ==> r.fault == (if !m.text.Str? then TextNotString else if m.from.None? then SenderMissing else ChatMissing)
    ensures r.Ok? ==> r.value.action == TextAction(Trim(m.text.s)) && r.value.category == CategoryOf(r.value.action)
    ensures r.Ok? && r.value.action == HandleLicensePlateSearch ==>
      r.value.data.PlateData? && r.value.data.licensePlate == CleanLicensePlate(Str(Trim(m.text.s)))
  {
    if !m.text.Str? then Throw(TextNotString)
    else
      var t := Trim(m.text.s);
      var a := TextAction(t);
      match SenderAndChat(m)
      case Throw(f) => Throw(f)
      case Ok((user, chat)) =>
        Ok(RoutingResult(CategoryOf(a), a,
          match a
          case HandleLicensePlateSearch => PlateData(CleanLicensePlate(Str(t)), t, user, chat, m.messageId)
          case HandleInvalidLicensePlate => InvalidPlateData(t, user, chat)
          case HandleUnrecognizedText => TextData(t, user, chat)
          case _ => CommandData(user, chat)))
  }

  // ---------------------------------------------------------------------
  // Callback queries
  // ---------------------------------------------------------------------

  /**
   * `data.match(/^<prefix>(.+)$/)`: the rest of `d` after `prefix`, when it
   * is non-empty and holds no line terminator (which `.` does not match).
   */
  function PrefixMatch(prefix: string, d: string): (r: Option<string>)
    ensures r.Some? ==> d == prefix + r.value && r.value != [] && forall i | 0 <= i < |r.value| :: !IsLineTerminator(r.value[i])
  {
    if |d| > |prefix| && d[..|prefix|] == prefix && forall i | |prefix| <= i < |d| :: !IsLineTerminator(d[i])
    then Some(d[|prefix|..])
    else None
  }

  /** Every non-empty line captured after `prefix` is matched back. */
  lemma PrefixMatchOf(prefix: string, s: string)
    requires s != [] && forall i | 0 <= i < |s| :: !IsLineTerminator(s[i])
    ensures PrefixMatch(prefix, prefix + s) == Some(s)
  {
    var d := prefix + s;
    assert d[..|prefix|] == prefix;
    assert d[|prefix|..] == s;
    forall i | |prefix| <= i < |d|
      ensures !IsLineTerminator(d[i])
    {
      assert d[i] == s[i - |prefix|];
    }
  }

  const TogglePrefix: string := "toggle_field_"
  const LanguagePrefix: string := "set_language_"

  /** The exact callback tokens the router recognises, each with its action. */
  const ExactCallbacks: map<string, Action> := map[
    "help" := HandleHelpCallback,
    "settings" := HandleSettingsCallback,
    "new_search" := HandleNewSearchCallback,
    "main_menu" := HandleMainMenuCallback,
    "cancel_search" := HandleCancelSearchCallback,
    "retry_search" := HandleRetrySearchCallback,
    "settings_fields" := HandleFieldsSettingsCallback,
    "settings_language" := HandleLanguageSettingsCallback,
    "settings_reset" := HandleResetSettingsCallback,
    "save_fields" := HandleSaveFieldsCallback]

  /** The body of `_routeCallbackQuery` once the ids have been read. */
  function CallbackResult(d: string, ctx: Context): (r: RoutingResult)
    ensures r.category == CategoryOf(r.action)
  {
    if d == "help" then RoutingResult(Callback, HandleHelpCallback, CallbackData(ctx))
    else if d == "settings" then RoutingResult(Callback, HandleSettingsCallback, CallbackData(ctx))
    else if d == "new_search" then RoutingResult(Callback, HandleNewSearchCallback, CallbackData(ctx))
    else if d == "main_menu" then RoutingResult(Callback, HandleMainMenuCallback, CallbackData(ctx))
    else if d == "cancel_search" then RoutingResult(Callback, HandleCancelSearchCallback, CallbackData(ctx))
    else if d == "retry_search" then RoutingResult(Callback, HandleRetrySearchCallback, CallbackData(ctx))
    else if d == "settings_fields" then RoutingResult(Settings, HandleFieldsSettingsCallback, CallbackData(ctx))
    else if d == "settings_language" then RoutingResult(Settings, HandleLanguageSettingsCallback, CallbackData(ctx))
    else if d == "settings_reset" then RoutingResult(Settings, HandleResetSettingsCallback, CallbackData(ctx))
    else if PrefixMatch(TogglePrefix, d).Some? then
      RoutingResult(FieldToggle, HandleToggleFieldCallback, FieldData(PrefixMatch(TogglePrefix, d).value, ctx))
    else if d == "save_fields" then RoutingResult(FieldSave, HandleSaveFieldsCallback, CallbackData(ctx))
    else if PrefixMatch(LanguagePrefix, d).Some? then
      RoutingResult(LanguageSet, HandleSetLanguageCallback, LanguageData(PrefixMatch(LanguagePrefix, d).value, ctx))
    else RoutingResult(UnrecognizedCallback, HandleUnrecognizedCallback, UnrecognizedCallbackData(d, ctx))
  }

  /** `_routeCallbackQuery`: reads `from.id`, `message.chat.id` and `message.message_id` first. */
  function RouteCallback(m: Event): (r: Thrown<RoutingResult>)
    requires Truthy(m.data)
    ensures r.Ok? <==> m.from.Some? && m.message.Some? && m.message.value.chat.Some? && m.data.Str?
    ensures r.Throw? ==>
      r.fault == (if m.from.None? then SenderMissing else if m.message.None? then OriginMissing
                  else if m.message.value.chat.None? then ChatMissing else DataNotString)
    ensures r.Ok? ==>
      && r.value.category == CategoryOf(r.value.action)
      && r.value.category in {Callback, Settings, FieldToggle, FieldSave, LanguageSet, UnrecognizedCallback}
    ensures r.Ok? ==>
      r.value == CallbackResult(m.data.s, Context(m.from.value.id, m.message.value.chat.value.id, m.message.value.messageId, m.id))
  {
    if m.from.None? then Throw(SenderMissing)
    else if m.message.None? then Throw(OriginMissing)
    else if m.message.value.chat.None? then Throw(ChatMissing)
    else if !m.data.Str? then Throw(DataNotString)
    else
      var ctx := Context(m.from.value.id, m.message.value.chat.value.id, m.message.value.messageId, m.id);
      Ok(CallbackResult(m.data.s, ctx))
  }

  // ---------------------------------------------------------------------
  // routeMessage
  // ---------------------------------------------------------------------

  /** `routeMessage`: text first, then callback data, else unsupported; a throw becomes `ERROR`. */
  function RouteMessage(m: Event): (r: RoutingResult)
    ensures r.category == CategoryOf(r.action)
    ensures r.category == Error <==> r.data.ErrorData?
    ensures r.data.ErrorData? ==> r.data.originalMessage == m
    ensures Truthy(m.text) ==> r.category in {Command, LicensePlateSearch, InvalidLicensePlate, UnrecognizedText, Error}
    ensures !Truthy(m.text) && Truthy(m.data) ==>
      r.category in {Callback, Settings, FieldToggle, FieldSave, LanguageSet, UnrecognizedCallback, Error}
    ensures !Truthy(m.text) && !Truthy(m.data) ==> r == RoutingResult(Unsupported, SendUnsupportedMessage, UnsupportedData("object"))
  {
    var attempt :=
      if Truthy(m.text) then RouteText(m)
      else if Truthy(m.data) then RouteCallback(m)
      else Ok(RoutingResult(Unsupported, SendUnsupportedMessage, UnsupportedData("object")));
    match attempt
    case Ok(result) => result
    case Throw(f) => RoutingResult(Error, HandleRoutingError, ErrorData(f, m))
  }

  /** `validateRoutingResult`: an object holding `type`, `action` and `data`. */
  predicate ValidateRoutingResult(r: Option<RoutingResult>) {
    r.Some?
  }

  /**
   * Every routing result passes `validateRoutingResult`.  The check asks
   * for an object with `type`, `action` and `data`; a `RoutingResult` has
   * all three by construction, so the fact rests on the datatype.
   */
  lemma RoutedResultsValidate(m: Event)
    ensures ValidateRoutingResult(Some(RouteMessage(m)))
  {
  }

  // ---------------------------------------------------------------------
  // Properties of text routing
  // ---------------------------------------------------------------------

  /** A well-formed text message: a non-empty string with a sender and a chat. */
  predicate WellFormedText(m: Event) {
    m.text.Str? && m.text.s != "" && m.from.Some? && m.chat.Some?
  }

  lemma CommandsAreNotPlates()
    ensures !IsPlateShape("/start") && !IsPlateShape("/help") && !IsPlateShape("/settings")
  {
    assert "/start"[0] == '/';
    assert "/settings"[0] == '/';
  }

  /**
   * A plate search happens exactly when the trimmed text has the plate shape
   * and 7 or 8 digits; it carries the digits and the trimmed text.
   */
  lemma PlateSearchExactly(m: Event)
    requires WellFormedText(m)
    ensures var t := Trim(m.text.s); var r := RouteMessage(m);
      && (r.action == HandleLicensePlateSearch <==> IsPlateShape(t) && 7 <= |Digits(t)| <= 8)
      && (r.action == HandleLicensePlateSearch ==>
            r.data == PlateData(Digits(t), t, m.from.value.id, m.chat.value.id, m.messageId))
  {
    CommandsAreNotPlates();
    DigitsIdempotent(Trim(m.text.s));
  }

  /** Text of plate shape with the wrong number of digits is an invalid plate, reported verbatim. */
  lemma InvalidPlateExactly(m: Event)
    requires WellFormedText(m)
    ensures var t := Trim(m.text.s); var r := RouteMessage(m);
      && (r.action == HandleInvalidLicensePlate <==> IsPlateShape(t) && !(7 <= |Digits(t)| <= 8))
      && (r.action == HandleInvalidLicensePlate ==> r.data == InvalidPlateData(t, m.from.value.id, m.chat.value.id))
  {
    CommandsAreNotPlates();
    DigitsIdempotent(Trim(m.text.s));
  }

  /** Anything that is neither a command nor of plate shape is unrecognized text. */
  lemma UnrecognizedTextExactly(m: Event)
    requires WellFormedText(m)
    ensures var t := Trim(m.text.s); var r := RouteMessage(m);
      r.action == HandleUnrecognizedText <==> t !in {"/start", "/help", "/settings"} && !IsPlateShape(t)
  {
  }

  /** `isPotentialLicensePlate` holds exactly for the texts routed as a search or an invalid plate. */
  lemma PotentialPlateAgreesWithRouting(m: Event)
    requires WellFormedText(m)
    ensures IsPotentialLicensePlate(m.text) <==> RouteMessage(m).category in {LicensePlateSearch, InvalidLicensePlate}
  {
    CommandsAreNotPlates();
  }

  /** Every text routed as a command passes `isCommand` once trimmed. */
  lemma CommandsPassIsCommand(m: Event)
    requires WellFormedText(m)
    requires RouteMessage(m).category == Command
    ensures IsCommand(Str(Trim(m.text.s)))
  {
    var t := Trim(m.text.s);
    assert t in {"/start", "/help", "/settings"};
    assert t[0] == '/';
  }

  /** Three digits are too short for the plate shape, so `'123'` is unrecognized text, not an invalid plate. */
  lemma ThreeDigitsAreUnrecognized(user: int, chat: int, id: int)
    ensures RouteMessage(TextMessage("123", user, chat, id)).action == HandleUnrecognizedText
  {
    TrimNoop("123");
  }

  // ---------------------------------------------------------------------
  // Properties of callback routing
  // ---------------------------------------------------------------------

  lemma ToggleIsNotExact(s: string)
    ensures TogglePrefix + s !in ExactCallbacks
    ensures TogglePrefix + s != "help" && TogglePrefix + s != "settings"
  {
    var d := TogglePrefix + s;
    assert d[0] == 't';
  }

  lemma LanguageIsNotExact(s: string)
    ensures LanguagePrefix + s !in ExactCallbacks
    ensures PrefixMatch(TogglePrefix, LanguagePrefix + s).None?
  {
    var d := LanguagePrefix + s;
    assert d[0] == 's' && d[3] == '_';
  }

  /** Each exact token routes to its own action. */
  lemma ExactCallbacksRoute(d: string, ctx: Context)
    requires d in ExactCallbacks
    ensures CallbackResult(d, ctx).action == ExactCallbacks[d]
    ensures CallbackResult(d, ctx).data == CallbackData(ctx)
  {
    if d == "save_fields" {
      assert |d| <= |TogglePrefix|;
    }
  }

  /** `toggle_field_<s>` toggles field `s`, taken verbatim. */
  lemma ToggleFieldRoute(s: string, ctx: Context)
    requires s != [] && forall i | 0 <= i < |s| :: !IsLineTerminator(s[i])
    ensures CallbackResult(TogglePrefix + s, ctx) == RoutingResult(FieldToggle, HandleToggleFieldCallback, FieldData(s, ctx))
  {
    ToggleIsNotExact(s);
    PrefixMatchOf(TogglePrefix, s);
  }

  /** A whole callback update with `toggle_field_<s>` data routes, through `routeMessage`, to FIELD_TOGGLE. */
  lemma ToggleUpdateRoutes(m: Event, s: string)
    requires !Truthy(m.text) && m.data == Str(TogglePrefix + s)
    requires s != [] && forall i | 0 <= i < |s| :: !IsLineTerminator(s[i])
    requires m.from.Some? && m.message.Some? && m.message.value.chat.Some?
    ensures RouteMessage(m) ==
      RoutingResult(FieldToggle, HandleToggleFieldCallback,
                    FieldData(s, Context(m.from.value.id, m.message.value.chat.value.id, m.message.value.messageId, m.id)))
  {
    ToggleFieldRoute(s, Context(m.from.value.id, m.message.value.chat.value.id, m.message.value.messageId, m.id));
  }

  /** `set_language_<s>` sets language `s`, taken verbatim. */
  lemma SetLanguageRoute(s: string, ctx: Context)
    requires s != [] && forall i | 0 <= i < |s| :: !IsLineTerminator(s[i])
    ensures CallbackResult(LanguagePrefix + s, ctx) == RoutingResult(LanguageSet, HandleSetLanguageCallback, LanguageData(s, ctx))
  {
    LanguageIsNotExact(s);
    PrefixMatchOf(LanguagePrefix, s);
  }

  /** A callback is unrecognized exactly when it is no token and matches neither prefix pattern. */
  lemma UnrecognizedCallbackExactly(d: string, ctx: Context)
    ensures var r := CallbackResult(d, ctx);
      && (r.category == UnrecognizedCallback <==>
            d !in ExactCallbacks && PrefixMatch(TogglePrefix, d).None? && PrefixMatch(LanguagePrefix, d).None?)
      && (r.category == UnrecognizedCallback ==> r.data == UnrecognizedCallbackData(d, ctx))
  {
  }

  /**
   * The `settings_compact` and `settings_notifications` patterns are
   * declared but never consulted by the callback routing, and the error
   * keyboard's `retry_action` matches no pattern.
   */
  lemma UnroutedCallbacksAreUnrecognized(ctx: Context)
    ensures CallbackResult("settings_compact", ctx).category == UnrecognizedCallback
    ensures CallbackResult("settings_notifications", ctx).category == UnrecognizedCallback
    ensures CallbackResult("retry_action", ctx).category == UnrecognizedCallback
  {
    assert "settings_compact"[0] == 's';
    assert "settings_notifications"[0] == 's';
    assert "retry_action"[0] == 'r';
    assert "settings_compact"[3] == 't';
    assert "settings_notifications"[3] == 't';
  }

  /** A callback query with no `from` is caught and reported, never thrown. */
  lemma MissingSenderIsRoutingError(m: Event)
    requires !Truthy(m.text) && Truthy(m.data) && m.from.None?
    ensures RouteMessage(m) == RoutingResult(Error, HandleRoutingError, ErrorData(SenderMissing, m))
  {
  }
}
