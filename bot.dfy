/**
 * The bot manager (src/bot/index.js), narrowly: the token check, the order
 * in which an inbound message is admitted (log line, validation, rate
 * limit, routing), the dispatch of an action name to its handler, the
 * counters, and the uptime text.
 *
 * The handlers behind the dispatch table are not part of this model: what
 * the chosen handler does is a parameter (`handlerResult`), and so is
 * whether Telegram accepts the rate-limit notice.  Time is the parameter
 * `now`.
 */
module Bot {
  import opened Text
  import opened Events
  import Router
  import Validation
  import Limiter
  import Errors

  // ---------------------------------------------------------------------
  // _executeAction
  // ---------------------------------------------------------------------

  /** The three handler objects the manager owns. */
  datatype HandlerObject = CommandHandler | LicensePlateHandler | SettingsHandler

  /** The handler method a `case` of `_executeAction` awaits. */
  datatype Target = Target(handler: HandlerObject, methodName: string)

  /**
   * The `switch (action)` of `_executeAction` on the actions the router
   * names; `handleRoutingError` has no handler.
   */
  function Dispatch(a: Router.Action): (t: Option<Target>)
    ensures t.Some? <==> a != Router.HandleRoutingError
    ensures t.Some? ==> t.value.methodName == Router.ActionName(a) || a == Router.SendUnsupportedMessage
  {
    match a
    case HandleStartCommand => Some(Target(CommandHandler, "handleStartCommand"))
    case HandleHelpCommand => Some(Target(CommandHandler, "handleHelpCommand"))
    case HandleSettingsCommand => Some(Target(CommandHandler, "handleSettingsCommand"))
    case HandleHelpCallback => Some(Target(CommandHandler, "handleHelpCallback"))
    case HandleSettingsCallback => Some(Target(CommandHandler, "handleSettingsCallback"))
    case HandleNewSearchCallback => Some(Target(CommandHandler, "handleNewSearchCallback"))
    case HandleMainMenuCallback => Some(Target(CommandHandler, "handleMainMenuCallback"))
    case HandleLicensePlateSearch => Some(Target(LicensePlateHandler, "handleLicensePlateSearch"))
    case HandleInvalidLicensePlate => Some(Target(LicensePlateHandler, "handleInvalidLicensePlate"))
    case HandleCancelSearchCallback => Some(Target(LicensePlateHandler, "handleCancelSearchCallback"))
    case HandleRetrySearchCallback => Some(Target(LicensePlateHandler, "handleRetrySearchCallback"))
    case HandleFieldsSettingsCallback => Some(Target(SettingsHandler, "handleFieldsSettingsCallback"))
    case HandleLanguageSettingsCallback => Some(Target(SettingsHandler, "handleLanguageSettingsCallback"))
    case HandleResetSettingsCallback => Some(Target(SettingsHandler, "handleResetSettingsCallback"))
    case HandleToggleFieldCallback => Some(Target(SettingsHandler, "handleToggleFieldCallback"))
    case HandleSaveFieldsCallback => Some(Target(SettingsHandler, "handleSaveFieldsCallback"))
    case HandleSetLanguageCallback => Some(Target(SettingsHandler, "handleSetLanguageCallback"))
    case HandleUnrecognizedText => Some(Target(CommandHandler, "handleUnrecognizedText"))
    case SendUnsupportedMessage => Some(Target(CommandHandler, "handleUnsupportedMessage"))
    case HandleUnrecognizedCallback => Some(Target(CommandHandler, "handleUnrecognizedCallback"))
    case HandleRoutingError => None
  }

  /**
   * Every action the router produces, except the routing error, has a
   * handler method of the same name (the unsupported-message action's is
   * `handleUnsupportedMessage`); the handler object follows the result's
   * category.
   */
  lemma DispatchCoversRouter(a: Router.Action)
    ensures Dispatch(a).Some? <==> a != Router.HandleRoutingError
    ensures a != Router.HandleRoutingError ==>
      var t := Dispatch(a).value;
      && (t.handler == SettingsHandler <==>
            Router.CategoryOf(a) in {Router.Settings, Router.FieldToggle, Router.FieldSave, Router.LanguageSet})
      && (t.handler == LicensePlateHandler <==>
            a in {Router.HandleLicensePlateSearch, Router.HandleInvalidLicensePlate,
                  Router.HandleCancelSearchCallback, Router.HandleRetrySearchCallback})
      && (t.methodName == Router.ActionName(a) <==> a != Router.SendUnsupportedMessage)
  {
    match a
    case HandleStartCommand =>
    case HandleHelpCommand =>
    case HandleSettingsCommand =>
    case HandleLicensePlateSearch =>
    case HandleInvalidLicensePlate =>
    case HandleUnrecognizedText =>
    case HandleHelpCallback =>
    case HandleSettingsCallback =>
    case HandleNewSearchCallback =>
    case HandleMainMenuCallback =>
    case HandleCancelSearchCallback =>
    case HandleRetrySearchCallback =>
    case HandleFieldsSettingsCallback =>
    case HandleLanguageSettingsCallback =>
    case HandleResetSettingsCallback =>
    case HandleToggleFieldCallback =>
    case HandleSaveFieldsCallback =>
    case HandleSetLanguageCallback =>
    case HandleUnrecognizedCallback =>
    case SendUnsupportedMessage =>
    case HandleRoutingError =>
  }

  /** A handler's completion: its returned value, or the `type` of the error it threw (`''` for none). */
  datatype Executed = Returned(value: bool) | Threw(errType: string)

  // ---------------------------------------------------------------------
  // _formatUptime
  // ---------------------------------------------------------------------

  /** An uptime split into days, hours, minutes and seconds. */
  datatype Clock = Clock(days: nat, hours: nat, minutes: nat, seconds: nat)

  /** `Math.floor` divisions of `_formatUptime`, then the remainders it prints. */
  function UptimeClock(uptime: nat): (c: Clock)
    ensures c.days * 86400 + c.hours * 3600 + c.minutes * 60 + c.seconds == uptime / 1000
    ensures c.hours < 24 && c.minutes < 60 && c.seconds < 60
  {
    var seconds := uptime / 1000;
    var minutes := seconds / 60;
    var hours := minutes / 60;
    var days := hours / 24;
    Clock(days, hours % 24, minutes % 60, seconds % 60)
  }

  /**
   * `_formatUptime`: days, hours and minutes once a day has passed,
   * otherwise the largest unit that is not zero and the one below it;
   * whole seconds only.
   */
  function FormatUptime(uptime: nat): (text: string)
    ensures var c := UptimeClock(uptime);
      && (c.days > 0 ==> text == IntToString(c.days) + "d " + IntToString(c.hours) + "h " + IntToString(c.minutes) + "m")
      && (c.days == 0 && c.hours > 0 ==> text == IntToString(c.hours) + "h " + IntToString(c.minutes) + "m")
      && (c.days == 0 && c.hours == 0 && c.minutes > 0 ==>
            text == IntToString(c.minutes) + "m " + IntToString(c.seconds) + "s")
      && (c.days == 0 && c.hours == 0 && c.minutes == 0 ==> text == IntToString(c.seconds) + "s")
  {
    var seconds := uptime / 1000;
    var minutes := seconds / 60;
    var hours := minutes / 60;
    var days := hours / 24;
    if days > 0 then
      IntToString(days) + "d " + IntToString(hours % 24) + "h " + IntToString(minutes % 60) + "m"
    else if hours > 0 then
      IntToString(hours) + "h " + IntToString(minutes % 60) + "m"
    else if minutes > 0 then
      IntToString(minutes) + "m " + IntToString(seconds % 60) + "s"
    else IntToString(seconds) + "s"
  }

  /** The four uptimes of the bot's own examples: 1 s, 61 s, 1 h 1 min 1 s and 1 d 1 h 1 min 1 s. */
  lemma UptimeExamples()
    ensures FormatUptime(1000) == "1s"
    ensures FormatUptime(61000) == "1m 1s"
    ensures FormatUptime(3661000) == "1h 1m"
    ensures FormatUptime(90061000) == "1d 1h 1m"
  {
    OneSecondUptime();
    OneMinuteUptime();
    OneHourUptime();
    OneDayUptime();
  }

  lemma OneSecondUptime()
    ensures FormatUptime(1000) == "1s"
  {
    assert UptimeClock(1000) == Clock(0, 0, 0, 1);
    assert IntToString(1) == "1";
  }

  lemma OneMinuteUptime()
    ensures FormatUptime(61000) == "1m 1s"
  {
    assert UptimeClock(61000) == Clock(0, 0, 1, 1);
    assert IntToString(1) == "1";
  }

  lemma OneHourUptime()
    ensures FormatUptime(3661000) == "1h 1m"
  {
    assert UptimeClock(3661000) == Clock(0, 1, 1, 1);
    assert IntToString(1) == "1";
  }

  lemma OneDayUptime()
    ensures FormatUptime(90061000) == "1d 1h 1m"
  {
    assert UptimeClock(90061000) == Clock(1, 1, 1, 1);
    assert IntToString(1) == "1";
  }

  // ---------------------------------------------------------------------
  // BotManager
  // ---------------------------------------------------------------------

  /** `stats` without `startTime`; `lastActivity` as the `now` of the last handled update. */
  datatype BotStats = BotStats(messagesProcessed: nat, errorsHandled: nat, lastActivity: Option<int>)

  /** Where an inbound update ended. */
  datatype Fate =
    | Escaped                                    // the `catch` itself threw; nothing was counted as handled
    | LogFailed                                  // the log line read `from.id` of a missing `from`
    | Invalid(error: string)                     // rejected by the validator
    | Limited(notice: string)                    // over the rate limit; the notice was sent (or failed)
    | Routed(result: Router.RoutingResult, executed: Executed)

  class BotManager {
    const token: string
    var stats: BotStats
    const rateLimiter: Limiter.RateLimiter
    const errorHandler: Errors.ErrorHandler

    ghost predicate Valid()
      reads this, rateLimiter
    {
      rateLimiter.Valid()
    }

    /** The body of the constructor after the token check; the options are the parsed settings, 0 when absent. */
    constructor(token: string, windowOption: nat, maxOption: nat)
      requires token != ""
      ensures Valid() && fresh(rateLimiter) && fresh(errorHandler)
      ensures this.token == token && stats == BotStats(0, 0, None)
      ensures rateLimiter.windowMs == (if windowOption != 0 then windowOption else Limiter.DefaultWindowMs)
      ensures rateLimiter.maxRequests == (if maxOption != 0 then maxOption else Limiter.DefaultMaxRequests)
      ensures errorHandler.errorStats == map[]
    {
      this.token := token;
      stats := BotStats(0, 0, None);
      rateLimiter := new Limiter.RateLimiter(windowOption, maxOption);
      errorHandler := new Errors.ErrorHandler();
    }

    /**
     * `_executeAction` on an action the router produced: the handler's
     * completion, or `false` with the routing error logged.
     */
    method ExecuteAction(action: Router.Action, handlerResult: Executed) returns (e: Executed)
      modifies errorHandler
      ensures Dispatch(action).Some? ==> e == handlerResult && errorHandler.errorStats == old(errorHandler.errorStats)
      ensures Dispatch(action).None? ==>
        e == Returned(false) && errorHandler.errorStats == Errors.Counted(old(errorHandler.errorStats), "")
    {
      if Dispatch(action).Some? {
        return handlerResult;
      }
      errorHandler.LogError("");
      e := Returned(false);
    }

    /** The `catch` of both handlers: report the error to the chat and count it. */
    method CountError(errType: string)
      modifies this, errorHandler
      ensures stats == old(stats).(errorsHandled := old(stats.errorsHandled) + 1)
      ensures errorHandler.errorStats == Errors.Counted(old(errorHandler.errorStats), errType)
    {
      var _, _ := errorHandler.HandleError(errType, true);
      stats := stats.(errorsHandled := stats.errorsHandled + 1);
    }

    /** The rate-limit step of `_handleMessage` for an accepted message: its sender's window is advanced. */
    method Admit(msg: Event, now: int) returns (limit: Limiter.LimitResult)
      requires Valid() && Validation.ValidateMessage(Some(msg)).Accepted?
      modifies rateLimiter
      ensures Valid()
      ensures var key := Limiter.UserKey(IntToString(msg.from.value.id));
        var d := Limiter.Decide(old(rateLimiter.Current(key, now)), now, rateLimiter.windowMs, rateLimiter.maxRequests);
        rateLimiter.users == old(rateLimiter.users)[key := d.0] && limit == d.1
      ensures rateLimiter.sweepScheduled == old(rateLimiter.sweepScheduled)
    {
      Validation.MessageAcceptance(msg);
      var v := Validation.ValidateMessage(Some(msg));
      assert v.value.userId == IntToString(msg.from.value.id);
      limit := rateLimiter.CheckLimit(v.value.userId, now);
    }

    /**
     * `_handleMessage`: count and stamp, log (which reads `from.id`),
     * validate, check the sender's rate limit, then route and execute.  An
     * error is counted once; a rejected or limited message is not routed.
     */
    method HandleMessage(msg: Event, now: int, noticeFails: bool, handlerResult: Executed) returns (fate: Fate)
      requires Valid()
      modifies this, rateLimiter, errorHandler
      ensures Valid()
      ensures stats.messagesProcessed == old(stats.messagesProcessed) + 1 && stats.lastActivity == Some(now)
      ensures msg.from.None? ==> unchanged(rateLimiter) && (if msg.chat.None? then fate == Escaped else fate == LogFailed)
      ensures var v := Validation.ValidateMessage(Some(msg));
        msg.from.Some? && v.Rejected? ==> fate == Invalid(v.error) && unchanged(rateLimiter)
      ensures var v := Validation.ValidateMessage(Some(msg));
        v.Accepted? ==>
          var key := Limiter.UserKey(IntToString(msg.from.value.id));
          var d := Limiter.Decide(old(rateLimiter.Current(key, now)), now, rateLimiter.windowMs, rateLimiter.maxRequests);
          && rateLimiter.users == old(rateLimiter.users)[key := d.0]
          && (!d.1.allowed ==> fate == Limited(Limiter.CreateLimitMessageAsWritten(d.1)))
          && (d.1.allowed ==> fate.Routed?)
      ensures fate.Routed? ==> fate.result == Router.RouteMessage(msg)
      ensures fate.Routed? ==> fate.executed == (if Dispatch(fate.result.action).Some? then handlerResult else Returned(false))
      ensures stats.errorsHandled == old(stats.errorsHandled) +
        (if fate == LogFailed || (fate.Limited? && noticeFails) || (fate.Routed? && fate.executed.Threw?) then 1 else 0)
      ensures errorHandler.errorStats ==
        if fate == LogFailed || (fate.Limited? && noticeFails) then Errors.Counted(old(errorHandler.errorStats), "")
        else if fate.Routed? && Dispatch(fate.result.action).None? then Errors.Counted(old(errorHandler.errorStats), "")
        else if fate.Routed? && fate.executed.Threw? then Errors.Counted(old(errorHandler.errorStats), fate.executed.errType)
        else old(errorHandler.errorStats)
      ensures rateLimiter.sweepScheduled == old(rateLimiter.sweepScheduled)
    {
      stats := stats.(messagesProcessed := stats.messagesProcessed + 1, lastActivity := Some(now));
      if msg.from.None? {
        if msg.chat.None? {
          return Escaped;
        }
        CountError("");
        return LogFailed;
      }
      var v := Validation.ValidateMessage(Some(msg));
      if v.Rejected? {
        return Invalid(v.error);
      }
      var limit := Admit(msg, now);
      if !limit.allowed {
        fate := Limited(Limiter.CreateLimitMessageAsWritten(limit));
        if noticeFails {
          CountError("");
        }
        return;
      }
      var result := Router.RouteMessage(msg);
      var e := ExecuteAction(result.action, handlerResult);
      if e.Threw? {
        CountError(e.errType);
      }
      fate := Routed(result, e);
    }

    /**
     * `_handleCallbackQuery`: count and stamp, log, then route and execute,
     * with neither validation nor rate limiting.  The `catch` reads
     * `message.chat.id`, so an error on a query without it escapes.
     */
    method HandleCallbackQuery(query: Event, now: int, handlerResult: Executed) returns (fate: Fate)
      requires Valid()
      modifies this, errorHandler
      ensures Valid()
      ensures stats.messagesProcessed == old(stats.messagesProcessed) + 1 && stats.lastActivity == Some(now)
      ensures var answerable := query.message.Some? && query.message.value.chat.Some?;
        && (query.from.None? ==> fate == (if answerable then LogFailed else Escaped))
        && (query.from.Some? ==>
              var result := Router.RouteMessage(query);
              var executed := if Dispatch(result.action).Some? then handlerResult else Returned(false);
              fate == (if executed.Threw? && !answerable then Escaped else Routed(result, executed)))
      ensures stats.errorsHandled == old(stats.errorsHandled) +
        (if fate == LogFailed || (fate.Routed? && fate.executed.Threw?) then 1 else 0)
      ensures errorHandler.errorStats ==
        if fate == LogFailed then Errors.Counted(old(errorHandler.errorStats), "")
        else if fate.Routed? && Dispatch(fate.result.action).None? then Errors.Counted(old(errorHandler.errorStats), "")
        else if fate.Routed? && fate.executed.Threw? then Errors.Counted(old(errorHandler.errorStats), fate.executed.errType)
        else old(errorHandler.errorStats)
    {
      stats := stats.(messagesProcessed := stats.messagesProcessed + 1, lastActivity := Some(now));
      var answerable := query.message.Some? && query.message.value.chat.Some?;
      if query.from.None? {
        if !answerable {
          return Escaped;
        }
        CountError("");
        return LogFailed;
      }
      var result := Router.RouteMessage(query);
      var e := ExecuteAction(result.action, handlerResult);
      if e.Threw? {
        if !answerable {
          return Escaped;
        }
        CountError(e.errType);
      }
      fate := Routed(result, e);
    }

    /** `resetStats`: both counters to 0, no last activity, and the error statistics emptied. */
    method ResetStats()
      modifies this, errorHandler
      ensures stats == BotStats(0, 0, None)
      ensures errorHandler.errorStats == map[] && Errors.Total(errorHandler.errorStats) == 0
    {
      stats := BotStats(0, 0, None);
      errorHandler.ResetErrorStats();
    }
  }

  /** What `new BotManager(token)` gives: a manager, or the error thrown for a missing token. */
  datatype Created = Created(manager: BotManager) | TokenMissing(message: string)

  /** `new BotManager(token)`: a falsy token throws `'Bot token is required'`. */
  method NewBotManager(token: string, windowOption: nat, maxOption: nat) returns (r: Created)
    ensures r.TokenMissing? <==> token == ""
    ensures r.TokenMissing? ==> r.message == "Bot token is required"
    ensures r.Created? ==> fresh(r.manager) && r.manager.Valid() && r.manager.stats == BotStats(0, 0, None)
  {
    if token == "" {
      return TokenMissing("Bot token is required");
    }
    var m := new BotManager(token, windowOption, maxOption);
    r := Created(m);
  }
}
