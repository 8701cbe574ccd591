/**
 * The input validator (src/utils/inputValidator.js): string checks that
 * return either the accepted, cleaned value or an error code with its
 * Hebrew message, and the text sanitiser they share.
 */
module Validation {
  import opened Text
  import opened Events
  import Router

  /** A validation result: `{valid: true, ...}` or `{valid: false, error, message}`. */
  datatype Checked<T> = Accepted(value: T) | Rejected(error: string, message: string)

  const MaxTextLength := 4000
  const MaxCallbackDataLength := 64
  const MaxFieldNameLength := 50
  /** `Number.MAX_SAFE_INTEGER`. */
  const MaxSafeInteger := 9007199254740991

  // ---------------------------------------------------------------------
  // sanitizeText
  // ---------------------------------------------------------------------

  /** `[<>"'&\x00-\x1f\x7f-\x9f]`. */
  predicate IsDangerous(c: char) {
    c in "<>\"'&" || c <= '\U{1F}' || ('\U{7F}' <= c <= '\U{9F}')
  }

  /** No character of `s` is dangerous. */
  predicate Safe(s: string) {
    forall i | 0 <= i < |s| :: !IsDangerous(s[i])
  }

  /** `replace(dangerousChars, '')`: the other characters, in order. */
  function StripDangerous(s: string): (r: string)
    ensures |r| <= |s|
    ensures Safe(r)
  {
    if s == [] then [] else (if IsDangerous(s[0]) then [] else [s[0]]) + StripDangerous(s[1..])
  }

  lemma {:induction false} StripAppend(a: string, b: string)
    ensures StripDangerous(a + b) == StripDangerous(a) + StripDangerous(b)
  {
    if a == [] {
      assert a + b == b;
    } else {
      assert (a + b)[1..] == a[1..] + b;
      StripAppend(a[1..], b);
    }
  }

  /** A text without dangerous characters is left as it is. */
  lemma {:induction false} StripClean(s: string)
    requires Safe(s)
    ensures StripDangerous(s) == s
  {
    if s != [] {
      StripClean(s[1..]);
      assert s == [s[0]] + s[1..];
    }
  }

  /** Digits are never dangerous, so stripping keeps all of them. */
  lemma {:induction false} StripKeepsDigits(s: string)
    ensures Digits(StripDangerous(s)) == Digits(s)
  {
    if s != [] {
      StripKeepsDigits(s[1..]);
      DigitsAppend(if IsDangerous(s[0]) then [] else [s[0]], StripDangerous(s[1..]));
    }
  }

  /** `substring(0, 4000)` when longer. */
  function TakeText(s: string): (r: string)
    ensures |r| <= MaxTextLength
    ensures |s| <= MaxTextLength ==> r == s
    ensures |s| > MaxTextLength ==> r == s[..MaxTextLength]
  {
    if |s| > MaxTextLength then s[..MaxTextLength] else s
  }

  /** `sanitizeText`: strip dangerous characters, cut to 4000, trim; `''` for a missing or non-string text. */
  function SanitizeText(text: JsField): (r: string)
    ensures !text.Str? || text.s == "" ==> r == ""
    ensures |r| <= MaxTextLength
    ensures Safe(r)
    ensures r == [] || (!IsSpace(r[0]) && !IsSpace(r[|r| - 1]))
    ensures text.Str? ==> Surrounds(TakeText(StripDangerous(text.s)), r)
    ensures var clean := text.Str? && |text.s| <= MaxTextLength && Safe(text.s)
                           && (text.s == [] || (!IsSpace(text.s[0]) && !IsSpace(text.s[|text.s| - 1])));
      clean ==> r == text.s
  {
    if !text.Str? then
      ""
    else if text.s == "" then
      assert TakeText(StripDangerous("")) == "";
      SurroundsSelf("");
      ""
    else
      SanitizeString(text.s)
  }

  /** The string case of `sanitizeText`. */
  function SanitizeString(s: string): (r: string)
    ensures |r| <= MaxTextLength
    ensures Safe(r)
    ensures r == [] || (!IsSpace(r[0]) && !IsSpace(r[|r| - 1]))
    ensures Surrounds(TakeText(StripDangerous(s)), r)
    ensures var clean := |s| <= MaxTextLength && Safe(s)
                           && (s == [] || (!IsSpace(s[0]) && !IsSpace(s[|s| - 1])));
      clean ==> r == s
  {
    var taken := TakeText(StripDangerous(s));
    TrimEnds(taken);
    TrimSurrounds(taken);
    SanitizedSafe(s);
    SanitizedClean(s);
    Trim(taken)
  }

  /** Trimming the cut, stripped text brings back no dangerous character. */
  lemma SanitizedSafe(s: string)
    ensures Safe(Trim(TakeText(StripDangerous(s))))
  {
    var stripped := StripDangerous(s);
    var taken := TakeText(stripped);
    var r := Trim(taken);
    assert forall j | 0 <= j < |taken| :: taken[j] == stripped[j];
    var p, q := TrimParts(taken);
    forall i | 0 <= i < |r|
      ensures !IsDangerous(r[i])
    {
      assert r[i] == taken[|p| + i];
    }
  }

  /** A clean text short enough and without outer white space survives sanitising. */
  lemma SanitizedClean(s: string)
    ensures var clean := |s| <= MaxTextLength && Safe(s)
                           && (s == [] || (!IsSpace(s[0]) && !IsSpace(s[|s| - 1])));
      clean ==> Trim(TakeText(StripDangerous(s))) == s
  {
    if |s| <= MaxTextLength && Safe(s) {
      StripClean(s);
      assert TakeText(s) == s;
      if s == [] || (!IsSpace(s[0]) && !IsSpace(s[|s| - 1])) {
        TrimNoop(s);
      }
    }
  }

  /** Sanitizing a sanitized text changes nothing. */
  lemma SanitizeIdempotent(text: JsField)
    ensures SanitizeText(Str(SanitizeText(text))) == SanitizeText(text)
  {
    var r := SanitizeText(text);
    if r != "" {
      StripClean(r);
      TrimNoop(r);
    }
  }

  // ---------------------------------------------------------------------
  // validateLicensePlate
  // ---------------------------------------------------------------------

  /** `{cleaned, original}` of an accepted plate. */
  datatype Plate = Plate(cleaned: string, original: string)

  /** `validateLicensePlate`: presence, then the shape of the sanitised text, then 7 or 8 digits. */
  function ValidateLicensePlate(plate: JsField): (r: Checked<Plate>)
    ensures r.Accepted? ==> plate.Str? && r.value.original == plate.s
    ensures r.Accepted? ==> AllDigits(r.value.cleaned) && 7 <= |r.value.cleaned| <= 8
    ensures r.Accepted? <==>
      Truthy(plate) && plate.Str? && Router.IsPlateShape(SanitizeText(plate)) && 7 <= |Digits(SanitizeText(plate))| <= 8
    ensures r.Accepted? ==> r.value.cleaned == Digits(SanitizeText(plate))
  {
    if !Truthy(plate) || !plate.Str? then Rejected("MISSING_LICENSE_PLATE", "מספר לוחית רישוי חסר")
    else
      var cleaned := SanitizeText(plate);
      if !Router.IsPlateShape(cleaned) then Rejected("INVALID_LICENSE_PLATE_FORMAT", "פורמט מספר לוחית רישוי לא תקין")
      else
        var digitsOnly := Digits(cleaned);
        if |digitsOnly| < 7 || |digitsOnly| > 8 then
          Rejected("INVALID_LICENSE_PLATE_LENGTH", "מספר לוחית רישוי חייב להכיל 7-8 ספרות")
        else Accepted(Plate(digitsOnly, plate.s))
  }

  /** The error code of a rejected plate follows the order of the checks. */
  lemma PlateRejections(plate: JsField)
    ensures !Truthy(plate) || !plate.Str? ==> ValidateLicensePlate(plate).error == "MISSING_LICENSE_PLATE"
    ensures Truthy(plate) && plate.Str? && !Router.IsPlateShape(SanitizeText(plate)) ==>
      ValidateLicensePlate(plate).error == "INVALID_LICENSE_PLATE_FORMAT"
    ensures Truthy(plate) && plate.Str? && Router.IsPlateShape(SanitizeText(plate)) && !(7 <= |Digits(SanitizeText(plate))| <= 8) ==>
      ValidateLicensePlate(plate).error == "INVALID_LICENSE_PLATE_LENGTH"
  {
  }

  /** A plate character (digit, white space, `-` or `.`) that is not white space is not dangerous. */
  lemma PlateCharSafe(c: char)
    requires IsDigit(c) || IsSpace(c) || c == '-' || c == '.'
    requires !IsSpace(c)
    ensures !IsDangerous(c)
  {
  }

  predicate IsPlateChar(c: char) {
    IsDigit(c) || IsSpace(c) || c == '-' || c == '.'
  }

  /** Whatever every character of a text satisfies, every character left after stripping satisfies. */
  lemma {:induction false} StripPreserves(s: string, P: char -> bool)
    requires forall i | 0 <= i < |s| :: P(s[i])
    ensures forall i | 0 <= i < |StripDangerous(s)| :: P(StripDangerous(s)[i])
  {
    if s != [] {
      StripPreserves(s[1..], P);
      var head := if IsDangerous(s[0]) then [] else [s[0]];
      assert StripDangerous(s) == head + StripDangerous(s[1..]);
    }
  }

  /** Stripping keeps a first and a last character that are not dangerous. */
  lemma StripEnds(s: string)
    requires s != [] && !IsDangerous(s[0]) && !IsDangerous(s[|s| - 1])
    ensures var r := StripDangerous(s); r != [] && r[0] == s[0] && r[|r| - 1] == s[|s| - 1]
  {
    var last := s[|s| - 1];
    assert StripDangerous([last]) == [last] by {
      assert [last][1..] == [];
    }
    if |s| > 1 {
      var mid := s[..|s| - 1];
      assert s == mid + [last];
      StripAppend(mid, [last]);
      assert StripDangerous(mid)[0] == s[0] by {
        assert mid[0] == s[0];
      }
    }
  }

  /** Stripping a plate-shaped text whose ends are not white space keeps its ends, its shape and its digits. */
  lemma StripPlate(core: string)
    requires Router.IsPlateShape(core) && 7 <= |Digits(core)|
    requires !IsSpace(core[0]) && !IsSpace(core[|core| - 1])
    ensures var sc := StripDangerous(core);
      && sc != [] && !IsSpace(sc[0]) && !IsSpace(sc[|sc| - 1])
      && Router.IsPlateShape(sc) && Digits(sc) == Digits(core)
  {
    PlateCharSafe(core[0]);
    PlateCharSafe(core[|core| - 1]);
    StripEnds(core);
    StripKeepsDigits(core);
    StripPreserves(core, IsPlateChar);
  }

  /**
   * Every text the router sends to a plate search (of at most 4000
   * characters) is accepted by the validator, with the same digits.
   */
  lemma RoutedPlatesValidate(text: string)
    requires |text| <= MaxTextLength
    requires Router.IsPlateShape(Trim(text)) && 7 <= |Digits(Trim(text))| <= 8
    ensures ValidateLicensePlate(Str(text)) == Accepted(Plate(Digits(Trim(text)), text))
  {
    var sc := SanitizedPlate(text);
    assert SanitizeText(Str(text)) == sc;
  }

  /** Stripping a text strips its leading white space, its trimmed text and its trailing white space apart. */
  lemma StripParts(text: string) returns (sp: string, sq: string)
    ensures AllSpace(sp) && AllSpace(sq)
    ensures StripDangerous(text) == sp + StripDangerous(Trim(text)) + sq
  {
    var p, q := TrimParts(text);
    var core := Trim(text);
    StripAppend(p + core, q);
    StripAppend(p, core);
    sp, sq := StripDangerous(p), StripDangerous(q);
    StripPreserves(p, IsSpace);
    StripPreserves(q, IsSpace);
  }

  /** White space is dangerous only when it is a control character, so stripping keeps trimmed ends in place. */
  lemma StripTrim(text: string)
    requires var core := Trim(text); core != [] && !IsDangerous(core[0]) && !IsDangerous(core[|core| - 1])
    ensures Trim(StripDangerous(text)) == StripDangerous(Trim(text))
  {
    var sp, sq := StripParts(text);
    var core := Trim(text);
    TrimSlice(text);
    assert !IsSpace(core[0]) && !IsSpace(core[|core| - 1]);
    var x := StripDangerous(core);
    StripEnds(core);
    assert x[0] == core[0] && x[|x| - 1] == core[|core| - 1];
    TrimAround(sp, x, sq);
  }

  /** The sanitised form of such a text is its trimmed text with the dangerous characters stripped. */
  lemma SanitizedPlate(text: string) returns (sc: string)
    requires |text| <= MaxTextLength
    requires Router.IsPlateShape(Trim(text)) && 7 <= |Digits(Trim(text))|
    ensures sc == StripDangerous(Trim(text)) && SanitizeText(Str(text)) == sc
    ensures Router.IsPlateShape(sc) && Digits(sc) == Digits(Trim(text))
  {
    var core := Trim(text);
    PlateEnds(text);
    StripPlate(core);
    StripTrim(text);
    sc := StripDangerous(core);
    SanitizeUncut(text);
  }

  /** The ends of a trimmed plate-shaped text are plate characters that are not white space. */
  lemma PlateEnds(text: string)
    requires Router.IsPlateShape(Trim(text))
    ensures var core := Trim(text);
      && core != [] && !IsSpace(core[0]) && !IsSpace(core[|core| - 1])
      && !IsDangerous(core[0]) && !IsDangerous(core[|core| - 1])
  {
    var core := Trim(text);
    TrimEnds(text);
    assert IsPlateChar(core[0]) && IsPlateChar(core[|core| - 1]);
    PlateCharSafe(core[0]);
    PlateCharSafe(core[|core| - 1]);
  }

  /** A non-empty text no longer than the limit is stripped and trimmed, never cut. */
  lemma SanitizeUncut(text: string)
    requires text != [] && |text| <= MaxTextLength
    ensures SanitizeText(Str(text)) == Trim(StripDangerous(text))
  {
    var stripped := StripDangerous(text);
    assert TakeText(stripped) == stripped;
    assert SanitizeText(Str(text)) == SanitizeString(text);
    assert SanitizeString(text) == Trim(stripped);
  }

  // ---------------------------------------------------------------------
  // Identifiers
  // ---------------------------------------------------------------------

  /** `{cleaned, numeric}` of an accepted id. */
  datatype Id = Id(cleaned: string, numeric: int)

  /** `validateUserId` on `String(userId)`: `/^\d+$/`, then `0 < n <= MAX_SAFE_INTEGER`. */
  function ValidateUserId(s: string): (r: Checked<Id>)
    ensures r.Accepted? ==> r.value.cleaned == s && 0 < r.value.numeric <= MaxSafeInteger
  {
    if s == "" || !AllDigits(s) then Rejected("INVALID_USER_ID", "מזהה משתמש לא תקין")
    else
      var n := ParseDigits(s);
      if n <= 0 || n > MaxSafeInteger then Rejected("USER_ID_OUT_OF_RANGE", "מזהה משתמש מחוץ לטווח המותר")
      else Accepted(Id(s, n))
  }

  /** A numeric user id is accepted exactly when it is positive and safe, and is read back unchanged. */
  lemma UserIdRoundTrip(n: int)
    ensures ValidateUserId(IntToString(n)).Accepted? <==> 0 < n <= MaxSafeInteger
    ensures ValidateUserId(IntToString(n)).Accepted? ==> ValidateUserId(IntToString(n)).value == Id(IntToString(n), n)
    ensures n < 0 ==> ValidateUserId(IntToString(n)).error == "INVALID_USER_ID"
    ensures n > MaxSafeInteger ==> ValidateUserId(IntToString(n)).error == "USER_ID_OUT_OF_RANGE"
  {
    if n >= 0 {
      ParseNatToString(n);
    } else {
      assert !IsDigit(IntToString(n)[0]);
    }
  }

  /** `parseInt` of `-?\d+`. */
  function ParseSigned(s: string): int
    requires s != [] && (AllDigits(s) || (s[0] == '-' && |s| > 1 && AllDigits(s[1..])))
  {
    if s[0] == '-' then -(ParseDigits(s[1..]) as int) else ParseDigits(s)
  }

  /** `validateChatId` on `String(chatId)`: `/^-?\d+$/`. */
  function ValidateChatId(s: string): (r: Checked<Id>)
    ensures r.Accepted? <==> s != [] && (AllDigits(s) || (s[0] == '-' && |s| > 1 && AllDigits(s[1..])))
    ensures r.Accepted? ==> r.value.cleaned == s
  {
    if s != [] && (AllDigits(s) || (s[0] == '-' && |s| > 1 && AllDigits(s[1..]))) then Accepted(Id(s, ParseSigned(s)))
    else Rejected("INVALID_CHAT_ID", "מזהה צ'אט לא תקין")
  }

  /** Every numeric chat id, negative group ids included, is accepted and read back unchanged. */
  lemma ChatIdRoundTrip(n: int)
    ensures ValidateChatId(IntToString(n)) == Accepted(Id(IntToString(n), n))
  {
    var s := IntToString(n);
    if n >= 0 {
      ParseNatToString(n);
      assert IsDigit(s[0]);
    } else {
      ParseNatToString(-n);
      assert s[1..] == NatToString(-n);
    }
  }

  // ---------------------------------------------------------------------
  // Callback data, field names, language codes
  // ---------------------------------------------------------------------

  predicate IsAsciiLetter(c: char) {
    'a' <= c <= 'z' || 'A' <= c <= 'Z'
  }

  /** `[a-zA-Z0-9_\-]`. */
  predicate IsCallbackChar(c: char) {
    IsAsciiLetter(c) || IsDigit(c) || c == '_' || c == '-'
  }

  /** `[a-zA-Z_]`. */
  predicate IsFieldNameChar(c: char) {
    IsAsciiLetter(c) || c == '_'
  }

  /** `validateCallbackData`: present, at most 64 characters, then the character class. */
  function ValidateCallbackData(data: JsField): (r: Checked<string>)
    ensures r.Accepted? <==>
      data.Str? && 0 < |data.s| <= MaxCallbackDataLength && forall i | 0 <= i < |data.s| :: IsCallbackChar(data.s[i])
    ensures r.Accepted? ==> r.value == data.s
    ensures data.Str? && |data.s| > MaxCallbackDataLength ==> r.error == "CALLBACK_DATA_TOO_LONG"
  {
    if !Truthy(data) || !data.Str? then Rejected("MISSING_CALLBACK_DATA", "נתוני callback חסרים")
    else if |data.s| > MaxCallbackDataLength then Rejected("CALLBACK_DATA_TOO_LONG", "נתוני callback ארוכים מדי")
    else if !(forall i | 0 <= i < |data.s| :: IsCallbackChar(data.s[i])) then
      Rejected("INVALID_CALLBACK_DATA_FORMAT", "פורמט נתוני callback לא תקין")
    else Accepted(data.s)
  }

  /** `validateFieldName`: present, at most 50 characters, then letters and `_`. */
  function ValidateFieldName(name: JsField): (r: Checked<string>)
    ensures r.Accepted? <==>
      name.Str? && 0 < |name.s| <= MaxFieldNameLength && forall i | 0 <= i < |name.s| :: IsFieldNameChar(name.s[i])
    ensures r.Accepted? ==> r.value == name.s
    ensures name.Str? && |name.s| > MaxFieldNameLength ==> r.error == "FIELD_NAME_TOO_LONG"
  {
    if !Truthy(name) || !name.Str? then Rejected("MISSING_FIELD_NAME", "שם שדה חסר")
    else if |name.s| > MaxFieldNameLength then Rejected("FIELD_NAME_TOO_LONG", "שם שדה ארוך מדי")
    else if !(forall i | 0 <= i < |name.s| :: IsFieldNameChar(name.s[i])) then
      Rejected("INVALID_FIELD_NAME_FORMAT", "פורמט שם שדה לא תקין")
    else Accepted(name.s)
  }

  /** An accepted field name is also acceptable callback data. */
  lemma FieldNamesAreCallbackData(name: JsField)
    requires ValidateFieldName(name).Accepted?
    ensures ValidateCallbackData(name) == Accepted(name.s)
  {
  }

  /** `toLowerCase` on ASCII letters; other characters are kept. */
  function ToLower(s: string): (r: string)
    ensures |r| == |s|
    ensures forall i | 0 <= i < |s| :: r[i] == if 'A' <= s[i] <= 'Z' then (s[i] - 'A' + 'a') as char else s[i]
  {
    if s == [] then [] else [if 'A' <= s[0] <= 'Z' then (s[0] - 'A' + 'a') as char else s[0]] + ToLower(s[1..])
  }

  /** `/^[a-z]{2}$/`. */
  predicate IsLanguageCodeShape(s: string) {
    |s| == 2 && 'a' <= s[0] <= 'z' && 'a' <= s[1] <= 'z'
  }

  const SupportedLanguages: seq<string> := ["he", "en"]

  /** `validateLanguageCode`: present, lower-cased, two letters, then one of the supported languages. */
  function ValidateLanguageCode(code: JsField): (r: Checked<string>)
    ensures r.Accepted? ==> code.Str? && r.value == ToLower(code.s) && r.value in SupportedLanguages
  {
    if !Truthy(code) || !code.Str? then Rejected("MISSING_LANGUAGE_CODE", "קוד שפה חסר")
    else
      var cleaned := ToLower(code.s);
      if !IsLanguageCodeShape(cleaned) then Rejected("INVALID_LANGUAGE_CODE_FORMAT", "פורמט קוד שפה לא תקין")
      else if cleaned !in SupportedLanguages then Rejected("UNSUPPORTED_LANGUAGE", "שפה לא נתמכת")
      else Accepted(cleaned)
  }

  /**
   * A code is accepted exactly when it lower-cases to `he` or `en`; any
   * other two-letter code is reported as unsupported.
   */
  lemma LanguageCodes(s: string)
    ensures ValidateLanguageCode(Str(s)).Accepted? <==> ToLower(s) in {"he", "en"}
    ensures IsLanguageCodeShape(ToLower(s)) && ToLower(s) !in {"he", "en"} ==>
      ValidateLanguageCode(Str(s)).error == "UNSUPPORTED_LANGUAGE"
  {
  }

  // ---------------------------------------------------------------------
  // Messages and callback queries
  // ---------------------------------------------------------------------

  /** `{userId, chatId}` or `{userId, callbackData}` of an accepted object, as strings. */
  datatype Ids = Ids(userId: string, other: string)

  /**
   * `validateMessage`: the object, `from.id`, `chat.id`, then the user id
   * and the chat id; the first failure is returned.  An id of 0 is falsy.
   */
  function ValidateMessage(message: Option<Event>): (r: Checked<Ids>)
    ensures r.Accepted? ==> message.Some? && message.value.from.Some? && message.value.chat.Some?
  {
    if message.None? then Rejected("INVALID_MESSAGE_OBJECT", "אובייקט הודעה לא תקין")
    else
      var m := message.value;
      if m.from.None? || m.from.value.id == 0 then Rejected("MISSING_USER_INFO", "מידע משתמש חסר")
      else if m.chat.None? || m.chat.value.id == 0 then Rejected("MISSING_CHAT_INFO", "מידע צ'אט חסר")
      else
        match ValidateUserId(IntToString(m.from.value.id))
        case Rejected(e, msg) => Rejected(e, msg)
        case Accepted(user) =>
          match ValidateChatId(IntToString(m.chat.value.id))
          case Rejected(e, msg) => Rejected(e, msg)
          case Accepted(chat) => Accepted(Ids(user.cleaned, chat.cleaned))
  }

  /**
   * A message passes exactly when it has a sender with a positive, safe id
   * and a chat with a non-zero id; the ids come back in decimal.
   */
  lemma MessageAcceptance(m: Event)
    ensures ValidateMessage(Some(m)).Accepted? <==>
      m.from.Some? && 0 < m.from.value.id <= MaxSafeInteger && m.chat.Some? && m.chat.value.id != 0
    ensures ValidateMessage(Some(m)).Accepted? ==>
      ValidateMessage(Some(m)).value == Ids(IntToString(m.from.value.id), IntToString(m.chat.value.id))
    ensures m.from.Some? && m.from.value.id < 0 && m.chat.Some? && m.chat.value.id != 0 ==>
      ValidateMessage(Some(m)).error == "INVALID_USER_ID"
  {
    if m.from.Some? {
      UserIdRoundTrip(m.from.value.id);
    }
    if m.chat.Some? {
      ChatIdRoundTrip(m.chat.value.id);
    }
  }

  /** `validateCallbackQuery`: the object, `from.id`, `data`, then the user id and the data. */
  function ValidateCallbackQuery(query: Option<Event>): (r: Checked<Ids>)
    ensures r.Accepted? ==> query.Some? && query.value.from.Some? && query.value.data.Str?
    ensures r.Accepted? ==> r.value.other == query.value.data.s
  {
    if query.None? then Rejected("INVALID_CALLBACK_QUERY_OBJECT", "אובייקט callback query לא תקין")
    else
      var q := query.value;
      if q.from.None? || q.from.value.id == 0 then Rejected("MISSING_USER_INFO", "מידע משתמש חסר")
      else if !Truthy(q.data) then Rejected("MISSING_CALLBACK_DATA", "נתוני callback חסרים")
      else
        match ValidateUserId(IntToString(q.from.value.id))
        case Rejected(e, msg) => Rejected(e, msg)
        case Accepted(user) =>
          match ValidateCallbackData(q.data)
          case Rejected(e, msg) => Rejected(e, msg)
          case Accepted(data) => Accepted(Ids(user.cleaned, data))
  }

  /**
   * `validateMessage` reports the first check that fails, in source order:
   * the object, the sender, the chat, then the sender's id (the chat id of
   * a number always passes `validateChatId`).
   */
  lemma MessageRejections(m: Event)
    ensures ValidateMessage(None) == Rejected("INVALID_MESSAGE_OBJECT", "אובייקט הודעה לא תקין")
    ensures m.from.None? || m.from.value.id == 0 ==>
      ValidateMessage(Some(m)) == Rejected("MISSING_USER_INFO", "מידע משתמש חסר")
    ensures m.from.Some? && m.from.value.id != 0 && (m.chat.None? || m.chat.value.id == 0) ==>
      ValidateMessage(Some(m)) == Rejected("MISSING_CHAT_INFO", "מידע צ'אט חסר")
    ensures m.from.Some? && m.from.value.id > MaxSafeInteger && m.chat.Some? && m.chat.value.id != 0 ==>
      ValidateMessage(Some(m)).Rejected? && ValidateMessage(Some(m)).error == "USER_ID_OUT_OF_RANGE"
  {
    if m.from.Some? {
      UserIdRoundTrip(m.from.value.id);
    }
  }

  /**
   * A callback query passes exactly when it has a sender with a positive,
   * safe id and 1 to 64 characters of `[A-Za-z0-9_-]` as its data; the id
   * comes back in decimal and the data unchanged.
   */
  lemma CallbackQueryAcceptance(q: Event)
    ensures ValidateCallbackQuery(Some(q)).Accepted? <==>
      && q.from.Some? && 0 < q.from.value.id <= MaxSafeInteger
      && q.data.Str? && 0 < |q.data.s| <= MaxCallbackDataLength
      && (forall i | 0 <= i < |q.data.s| :: IsCallbackChar(q.data.s[i]))
    ensures ValidateCallbackQuery(Some(q)).Accepted? ==>
      ValidateCallbackQuery(Some(q)).value == Ids(IntToString(q.from.value.id), q.data.s)
  {
    if q.from.Some? {
      UserIdRoundTrip(q.from.value.id);
    }
  }

  /**
   * `validateCallbackQuery` reports the first check that fails, in source
   * order: the object, the sender, the data's presence, the sender's id,
   * then the data's length and characters.
   */
  lemma CallbackQueryRejections(q: Event)
    ensures ValidateCallbackQuery(None).Rejected? && ValidateCallbackQuery(None).error == "INVALID_CALLBACK_QUERY_OBJECT"
    ensures q.from.None? || q.from.value.id == 0 ==>
      ValidateCallbackQuery(Some(q)) == Rejected("MISSING_USER_INFO", "מידע משתמש חסר")
    ensures q.from.Some? && q.from.value.id != 0 && !Truthy(q.data) ==>
      ValidateCallbackQuery(Some(q)) == Rejected("MISSING_CALLBACK_DATA", "נתוני callback חסרים")
    ensures q.from.Some? && q.from.value.id != 0 && Truthy(q.data) && q.from.value.id < 0 ==>
      ValidateCallbackQuery(Some(q)).Rejected? && ValidateCallbackQuery(Some(q)).error == "INVALID_USER_ID"
    ensures q.from.Some? && 0 < q.from.value.id <= MaxSafeInteger && q.data.Str? && |q.data.s| > MaxCallbackDataLength ==>
      ValidateCallbackQuery(Some(q)).Rejected? && ValidateCallbackQuery(Some(q)).error == "CALLBACK_DATA_TOO_LONG"
  {
    if q.from.Some? {
      UserIdRoundTrip(q.from.value.id);
    }
  }
}
