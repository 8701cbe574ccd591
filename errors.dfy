/**
 * The error handler (src/utils/errorHandler.js): a fixed table of error
 * types, the user message each type is shown as, and a count of the errors
 * handled per type.  An error's `type` is a string; the empty string stands
 * for an error without one, which the handler treats as `UNKNOWN_ERROR`.
 */
module Errors {
  import opened Text
  import opened Collections
  import Router
  import Formatter

  datatype ErrorInfo = ErrorInfo(isRetryable: bool, severity: string, userMessage: string)

  /** The `errorTypes` table. */
  function Info(errType: string): (r: Option<ErrorInfo>)
  {
    match errType
    case "NETWORK_TIMEOUT" => Some(ErrorInfo(true, "warning", "network_timeout"))
    case "NETWORK_ERROR" => Some(ErrorInfo(true, "error", "network_error"))
    case "API_SERVER_ERROR" => Some(ErrorInfo(true, "error", "api_server_error"))
    case "API_NOT_FOUND" => Some(ErrorInfo(false, "info", "no_results"))
    case "RATE_LIMIT_EXCEEDED" => Some(ErrorInfo(true, "warning", "rate_limit"))
    case "API_INVALID_RESPONSE" => Some(ErrorInfo(true, "error", "api_error"))
    case "INVALID_LICENSE_PLATE" => Some(ErrorInfo(false, "info", "invalid_license"))
    case "EMPTY_INPUT" => Some(ErrorInfo(false, "info", "empty_input"))
    case "UNKNOWN_ERROR" => Some(ErrorInfo(false, "error", "unknown_error"))
    case "INTERNAL_ERROR" => Some(ErrorInfo(false, "critical", "internal_error"))
    case _ => None
  }

  const KnownTypes: set<string> := {
    "NETWORK_TIMEOUT", "NETWORK_ERROR", "API_SERVER_ERROR", "API_NOT_FOUND", "RATE_LIMIT_EXCEEDED",
    "API_INVALID_RESPONSE", "INVALID_LICENSE_PLATE", "EMPTY_INPUT", "UNKNOWN_ERROR", "INTERNAL_ERROR"}

  const RetryableTypes: set<string> := {
    "NETWORK_TIMEOUT", "NETWORK_ERROR", "API_SERVER_ERROR", "RATE_LIMIT_EXCEEDED", "API_INVALID_RESPONSE"}

  /** The table has an entry exactly for the ten known types. */
  lemma InfoDomain(errType: string)
    ensures Info(errType).Some? <==> errType in KnownTypes
  {
  }

  /** `error.type || 'UNKNOWN_ERROR'`. */
  function TypeOf(errType: string): (t: string)
    ensures t != ""
    ensures errType != "" ==> t == errType
  {
    if errType == "" then "UNKNOWN_ERROR" else errType
  }

  /** `isRetryableError`: the table's flag, `false` for a missing or unknown type. */
  function IsRetryableError(errType: string): (b: bool)
    ensures b <==> TypeOf(errType) in RetryableTypes
  {
    var info := Info(TypeOf(errType));
    info.Some? && info.value.isRetryable
  }

  /** `_getErrorInfo`: the table's entry, the `UNKNOWN_ERROR` one for a missing or unknown type. */
  function GetErrorInfo(errType: string): (info: ErrorInfo)
    ensures TypeOf(errType) in KnownTypes ==> Some(info) == Info(TypeOf(errType))
    ensures TypeOf(errType) !in KnownTypes ==> Some(info) == Info("UNKNOWN_ERROR")
  {
    InfoDomain(TypeOf(errType));
    var info := Info(TypeOf(errType));
    if info.Some? then info.value else ErrorInfo(false, "error", "unknown_error")
  }

  /** The retry flag of the info agrees with `isRetryableError`. */
  lemma RetryableAgreesWithInfo(errType: string)
    ensures IsRetryableError(errType) == GetErrorInfo(errType).isRetryable
  {
    InfoDomain(TypeOf(errType));
  }

  /** `messageMap`: from a `userMessage` key to the type `formatErrorMessage` is given. */
  function MessageType(userMessage: string): (t: string)
  {
    match userMessage
    case "network_timeout" => "NETWORK_TIMEOUT"
    case "network_error" => "NETWORK_ERROR"
    case "api_server_error" => "API_SERVER_ERROR"
    case "rate_limit" => "RATE_LIMIT_EXCEEDED"
    case "invalid_license" => "INVALID_LICENSE_PLATE"
    case "no_results" => "NO_RESULTS"
    case "api_error" => "API_ERROR"
    case _ => "UNKNOWN_ERROR"
  }

  /** The type `_createUserMessage` passes to the formatter. */
  function UserMessageType(errType: string): (t: string)
  {
    MessageType(GetErrorInfo(errType).userMessage)
  }

  /** `_createUserMessage`: the formatter's error message for the mapped type. */
  function CreateUserMessage(errType: string): (m: Formatter.Message)
  {
    Formatter.FormatErrorMessage(UserMessageType(errType))
  }

  /**
   * The four network and server types and an invalid plate keep their own
   * message; a missing result and an invalid response are mapped to types
   * the formatter has no text for, like every other type.
   */
  lemma UserMessageTypes(errType: string)
    ensures var t := TypeOf(errType);
      UserMessageType(errType) ==
        if t in {"NETWORK_TIMEOUT", "NETWORK_ERROR", "API_SERVER_ERROR", "RATE_LIMIT_EXCEEDED", "INVALID_LICENSE_PLATE"} then t
        else if t == "API_NOT_FOUND" then "NO_RESULTS"
        else if t == "API_INVALID_RESPONSE" then "API_ERROR"
        else "UNKNOWN_ERROR"
  {
    var t := TypeOf(errType);
    InfoDomain(t);
  }

  /**
   * Only an invalid plate is shown without a retry button; every other
   * type, the non-retryable ones included, is offered a retry.
   */
  lemma UserMessageRetry(errType: string)
    ensures |CreateUserMessage(errType).keyboard| == 1 <==> TypeOf(errType) == "INVALID_LICENSE_PLATE"
  {
    UserMessageTypes(errType);
  }

  /** `createCustomErrorMessage`: the text after a cross, with an optional retry row. */
  function CreateCustomErrorMessage(message: string, showRetry: bool): (m: Formatter.Message)
    ensures m.text == "❌ " + message && !m.markdown
    ensures |m.keyboard| == (if showRetry then 2 else 1)
    ensures m.keyboard[|m.keyboard| - 1] ==
      [Formatter.Button(Formatter.NewSearchLabel, "new_search"), Formatter.Button(Formatter.HelpLabel, "help")]
  {
    var last := [Formatter.Button(Formatter.NewSearchLabel, "new_search"), Formatter.Button(Formatter.HelpLabel, "help")];
    Formatter.Message(
      "❌ " + message, false,
      (if showRetry then [[Formatter.Button(Formatter.RetryLabel, "retry_action")]] else []) + [last])
  }

  /** The custom retry button sends `retry_action`, which no route accepts. */
  lemma CustomRetryIsUnrouted(message: string, ctx: Router.Context)
    ensures Router.CallbackResult(CreateCustomErrorMessage(message, true).keyboard[0][0].callbackData, ctx).category
      == Router.UnrecognizedCallback
  {
    Router.UnroutedCallbacksAreUnrecognized(ctx);
  }

  /**
   * `createError`: an error object's own properties; `additionalData` is
   * copied over `message` and `type`, so it may replace either.
   */
  function CreateError(errType: string, message: string, additionalData: map<string, string>): (e: map<string, string>)
    ensures e.Keys == {"message", "type"} + additionalData.Keys
    ensures forall k | k in additionalData :: e[k] == additionalData[k]
    ensures "type" !in additionalData ==> e["type"] == errType
    ensures "message" !in additionalData ==> e["message"] == message
  {
    map["message" := message, "type" := errType] + additionalData
  }

  // ---------------------------------------------------------------------
  // Statistics
  // ---------------------------------------------------------------------

  /** The count kept for a type, 0 when it has none. */
  function CountOf(stats: map<string, nat>): string -> int
  {
    k => if k in stats then stats[k] else 0
  }

  /** `totalErrors`: the sum of all counts. */
  ghost function Total(stats: map<string, nat>): int
  {
    SumOver(stats.Keys, CountOf(stats))
  }

  /** The statistics after one more error of type `errType`. */
  function Counted(stats: map<string, nat>, errType: string): (r: map<string, nat>)
    ensures r.Keys == stats.Keys + {TypeOf(errType)}
    ensures r[TypeOf(errType)] == CountOf(stats)(TypeOf(errType)) + 1
    ensures forall k | k in stats && k != TypeOf(errType) :: r[k] == stats[k]
  {
    var t := TypeOf(errType);
    stats[t := if t in stats then stats[t] + 1 else 1]
  }

  /** Counting an error adds exactly one to the total. */
  lemma CountedTotal(stats: map<string, nat>, errType: string)
    ensures Total(Counted(stats, errType)) == Total(stats) + 1
  {
    var t := TypeOf(errType);
    var r := Counted(stats, errType);
    var rest := stats.Keys - {t};
    SumOverCongruent(rest, CountOf(r), CountOf(stats));
    if t in stats {
      SumOverRemove(stats.Keys, CountOf(stats), t);
      SumOverRemove(r.Keys, CountOf(r), t);
      assert r.Keys - {t} == rest;
    } else {
      assert r.Keys == stats.Keys + {t} && stats.Keys == rest;
      SumOverAdd(stats.Keys, CountOf(r), t);
    }
  }

  lemma TotalNonNegative(stats: map<string, nat>)
    ensures Total(stats) >= 0
  {
    SumOverNonNegative(stats.Keys, CountOf(stats));
  }

  /** One entry of `getErrorStats().errorTypes`. */
  datatype TypeStats = TypeStats(count: nat, severity: string, isRetryable: bool)

  /** The entry for a counted type: severity and retry flag from the table, `'unknown'`/`false` otherwise. */
  function TypeStatsOf(errType: string, count: nat): (s: TypeStats)
    ensures s.count == count
    ensures errType in KnownTypes ==> s.severity == Info(errType).value.severity && s.isRetryable == Info(errType).value.isRetryable
    ensures errType !in KnownTypes ==> s == TypeStats(count, "unknown", false)
  {
    InfoDomain(errType);
    var info := Info(errType);
    if info.Some? then TypeStats(count, info.value.severity, info.value.isRetryable)
    else TypeStats(count, "unknown", false)
  }

  class ErrorHandler {
    var errorStats: map<string, nat>

    constructor()
      ensures errorStats == map[]
    {
      errorStats := map[];
    }

    /** `_updateErrorStats`. */
    method UpdateErrorStats(errType: string)
      modifies this
      ensures errorStats == Counted(old(errorStats), errType)
    {
      var t := TypeOf(errType);
      var current := if t in errorStats then errorStats[t] else 0;
      errorStats := errorStats[t := current + 1];
    }

    /** `logError`: only the statistics change. */
    method LogError(errType: string)
      modifies this
      ensures errorStats == Counted(old(errorStats), errType)
    {
      UpdateErrorStats(errType);
    }

    /**
     * `handleError`: counts the error and builds its user message; `sent`
     * is whether Telegram accepted it, and the result is `true` exactly then.
     */
    method HandleError(errType: string, sent: bool) returns (handled: bool, message: Formatter.Message)
      modifies this
      ensures errorStats == Counted(old(errorStats), errType)
      ensures message == CreateUserMessage(errType)
      ensures handled == sent
    {
      UpdateErrorStats(errType);
      message := CreateUserMessage(errType);
      handled := sent;
    }

    /** `getErrorStats`, without the time stamp: the total and one entry per counted type. */
    method GetErrorStats() returns (totalErrors: int, types: map<string, TypeStats>)
      ensures totalErrors == Total(errorStats)
      ensures types.Keys == errorStats.Keys
      ensures forall k | k in types :: types[k] == TypeStatsOf(k, errorStats[k])
      ensures totalErrors >= 0
    {
      totalErrors := 0;
      types := map[];
      var pending := errorStats.Keys;
      while pending != {}
        invariant pending <= errorStats.Keys
        invariant types.Keys == errorStats.Keys - pending
        invariant forall k | k in types :: types[k] == TypeStatsOf(k, errorStats[k])
        invariant totalErrors + SumOver(pending, CountOf(errorStats)) == Total(errorStats)
        decreases pending
      {
        var k :| k in pending;
        SumOverRemove(pending, CountOf(errorStats), k);
        types := types[k := TypeStatsOf(k, errorStats[k])];
        totalErrors := totalErrors + errorStats[k];
        pending := pending - {k};
      }
      TotalNonNegative(errorStats);
    }

    /** `resetErrorStats`. */
    method ResetErrorStats()
      modifies this
      ensures errorStats == map[]
      ensures Total(errorStats) == 0
    {
      errorStats := map[];
    }
  }
}
