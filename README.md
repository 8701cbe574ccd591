# Vehicle lookup bot — a verified model of its core

A Telegram bot answers Israeli licence-plate numbers with the vehicle's registration data
from the government open-data API, and with whether the vehicle holds a disability permit.
Users choose which fields are shown, in Hebrew or English. This project models the core of
that bot in Dafny:

- the **message router**: a text, command or button press becomes an action;
- the **input validator**: plates, ids, callback data, language codes and whole messages;
- the **rate limiter**: a sliding window per user, with its wait notice;
- the **TTL cache** with LRU eviction;
- the **vehicle data service**: a bounded retry loop around the HTTP call, error
  classification, and cache-first lookups of a vehicle and of a permit;
- the **user settings** record and the in-memory **settings service**;
- the **vehicle record**: field mapping from the API and the Hebrew code tables;
- the **message formatter**: error messages, menus, the results message, and Markdown
  escaping and truncation;
- the **error handler**: type table, user messages and statistics;
- the **licence-plate handler**: the duplicate-search guard and the search itself;
- the **bot manager**: validate, rate-limit, route, execute and count.

One Dafny module per source file:

| module | source file | form |
|---|---|---|
| Router | src/utils/messageRouter.js | functions |
| Validation | src/utils/inputValidator.js | functions |
| Limiter | src/utils/rateLimiter.js | class `RateLimiter` over functions `Live`/`Decide` |
| Caching | src/utils/cache.js | class `SimpleCache` over functions `Lookup`/`ExpiredKeys` |
| Fetcher | src/services/vehicleDataService.js | class `VehicleDataService` and function `Request` |
| Settings | src/models/UserSettings.js | class `UserSettings` over the value `SettingsJson` |
| SettingsService | src/services/userSettingsService.js | class `UserSettingsService` over a `map` |
| Vehicles | src/models/VehicleData.js | functions |
| Formatter | src/utils/messageFormatter.js | functions |
| Errors | src/utils/errorHandler.js | class `ErrorHandler` and the type table |
| PlateHandler | src/handlers/licensePlateHandler.js | class `LicensePlateHandler` |
| Bot | src/bot/index.js | class `BotManager` |

`Text`, `Collections` and `Events` hold shared helpers: character classes, `trim`,
integer-to-decimal conversion, `Option`, sums over finite sets, and the shape of an inbound
Telegram update.

Time is the explicit parameter `now` (milliseconds). The HTTP client is an oracle: the n-th
call of one request returns `outcomes[n - 1]`. Telegram sends that may fail are boolean
parameters. Every handler the bot dispatches to, the licence-plate search included, is
abstract there: its completion is a parameter. The licence-plate handler is modelled on its
own.

Behaviour of the code a reader may not expect, which the model follows:

- `123` routes as unrecognized text, not as an invalid plate. A plate-shaped text has 7 to
  11 characters.
- An API answer without `success` is thrown as `API_INVALID_RESPONSE` but is not retried,
  and it is classified `UNKNOWN_ERROR`. The error table marks that type retryable.
- `ENOTFOUND` and `ECONNREFUSED` become `NETWORK_ERROR`, which the error table calls
  retryable, but the service never retries them.
- A cached `null` vehicle is not a cache hit and is fetched again. A cached `false` permit
  is a hit.
- An expired entry found by the cache's `has` is deleted and counted as a delete.
- The LRU eviction skips an oldest key equal to `''`.
- The custom error message's `retry_action` button has no route. Neither have
  `settings_compact` and `settings_notifications`.
- A full cache can grow past its maximum size. Eviction removes nothing when every access
  time equals the current millisecond, or when the oldest key is `''`. The new key is then
  stored anyway (`SetWithinBound`, `FullCacheOverflows`).
- The rate-limit notice rounds the minutes up and then adds the seconds, so the bot overstates
  the wait (see "## Findings"). The bot model sends that text as written.

## Model

| member | source | states |
|---|---|---|
| Router.RemoveSeparators | src/utils/messageRouter.js:301-303 | the separator-free text is no longer than the input |
| Router.DigitsIgnoreSeparators | src/utils/messageRouter.js:301-303 | removing spaces, `-` and `.` keeps exactly the digits of the text |
| Router.CleanLicensePlate | src/utils/messageRouter.js:295-305 | the cleaned plate is exactly the digits of the text; `''` for a non-string |
| Router.CleanIdempotent | src/utils/messageRouter.js:295-305 | cleaning a cleaned plate changes nothing |
| Router.IsValidLicensePlate | src/utils/messageRouter.js:311-319 | valid exactly for 7 or 8 digits |
| Router.IsCommand | src/utils/messageRouter.js:326-332 | true exactly for a string that starts with `/` |
| Router.IsPotentialLicensePlate | src/utils/messageRouter.js:339-345 | true exactly for text whose trimmed form is 7-11 digits and separators |
| Router.TextAction | src/utils/messageRouter.js:85-150 | a text always becomes a command, a plate search, an invalid plate or unrecognized text |
| Router.SenderAndChat | src/utils/messageRouter.js:92 | the sender's and chat's ids, or which of the two is missing |
| Router.PrefixMatch | src/utils/messageRouter.js:238-239 | a match is a non-empty rest without line breaks that follows the prefix in the data |
| Router.PrefixMatchOf | src/utils/messageRouter.js:238-244 | prefix plus rest matches and gives back the rest |
| Router.RouteText | src/utils/messageRouter.js:85-150 | routed exactly when the text is a string with a sender and a chat, else the first missing one is thrown; the action is `TextAction` of the trimmed text, and a search carries the cleaned digits |
| Router.RouteCallback | src/utils/messageRouter.js:157-288 | routed exactly with a sender, an origin message with a chat, and string data, else the first missing one is thrown; the routed value is `CallbackResult` of the data and the sender, chat, message and query ids, so the callback lemmas below hold of it |
| Router.CallbackResult | src/utils/messageRouter.js:157-288 | the category always agrees with the action |
| Router.RouteMessage | src/utils/messageRouter.js:51-78 | a text gives a text category, callback data a callback category, anything else `UNSUPPORTED`; an error carries the update |
| Router.RoutedResultsValidate | src/utils/messageRouter.js:385-392 | every result the router produces passes `validateRoutingResult` (`ValidateRoutingResult`); the result datatype always has `type`, `action` and `data` |
| Router.CommandsAreNotPlates | src/utils/messageRouter.js:13-18 | no command name is a plate |
| Router.PlateSearchExactly | src/utils/messageRouter.js:113-127 | a text is searched exactly when its trimmed form is plate-shaped with 7-8 digits, and the search carries those digits |
| Router.InvalidPlateExactly | src/utils/messageRouter.js:128-137 | a text is an invalid plate exactly when its trimmed form is plate-shaped without 7-8 digits |
| Router.UnrecognizedTextExactly | src/utils/messageRouter.js:141-150 | a text is unrecognized exactly when it is neither a command nor plate-shaped |
| Router.PotentialPlateAgreesWithRouting | src/utils/messageRouter.js:339-345 | `isPotentialLicensePlate` holds exactly for the texts routed as a search or an invalid plate |
| Router.CommandsPassIsCommand | src/utils/messageRouter.js:326-332 | every text routed as a command satisfies `isCommand` |
| Router.ThreeDigitsAreUnrecognized | src/utils/messageRouter.js:113-150 | `123` is unrecognized, not an invalid plate |
| Router.ToggleIsNotExact | src/utils/messageRouter.js:164-251 | toggle data never collides with an exact callback name |
| Router.LanguageIsNotExact | src/utils/messageRouter.js:164-275 | language data never collides with an exact name or the toggle prefix |
| Router.ExactCallbacksRoute | src/utils/messageRouter.js:164-259 | each exact callback name routes to its own action |
| Router.ToggleFieldRoute | src/utils/messageRouter.js:238-251 | `toggle_field_<name>` toggles field `<name>` |
| Router.ToggleUpdateRoutes | src/utils/messageRouter.js:51-61 | a whole callback update with `toggle_field_<name>` data goes through `routeMessage` to FIELD_TOGGLE for `<name>`, with the update's ids |
| Router.SetLanguageRoute | src/utils/messageRouter.js:262-275 | `set_language_<code>` sets language `<code>` |
| Router.UnrecognizedCallbackExactly | src/utils/messageRouter.js:277-288 | data that is neither exact nor prefixed is unrecognized |
| Router.UnroutedCallbacksAreUnrecognized | src/utils/messageRouter.js:32-33 | `retry_action`, `settings_compact` and `settings_notifications` have no route |
| Router.MissingSenderIsRoutingError | src/utils/messageRouter.js:70-77 | an update without a sender is a routing error |
| Validation.StripDangerous | src/utils/inputValidator.js:253-259 | no dangerous character is left, and the text does not grow |
| Validation.StripAppend | src/utils/inputValidator.js:259 | stripping distributes over concatenation |
| Validation.StripClean | src/utils/inputValidator.js:259 | text without dangerous characters is unchanged |
| Validation.StripKeepsDigits | src/utils/inputValidator.js:259 | stripping keeps the digits |
| Validation.TakeText | src/utils/inputValidator.js:262-264 | at most 4000 characters: shorter text is unchanged, longer text becomes its first 4000 characters |
| Validation.SanitizeText | src/utils/inputValidator.js:253-270 | `''` for a missing or non-string text; otherwise at most 4000 characters, none dangerous, trimmed, and what is removed after stripping and cutting is only outer white space; a clean, trimmed text of at most 4000 characters comes back unchanged |
| Validation.SanitizeIdempotent | src/utils/inputValidator.js:253-270 | sanitizing twice equals sanitizing once |
| Validation.ValidateLicensePlate | src/utils/inputValidator.js:44-79 | accepted exactly for sanitized 7-11 plate characters with 7-8 digits; the cleaned plate is those digits |
| Validation.PlateRejections | src/utils/inputValidator.js:44-79 | each rejection carries its own error code |
| Validation.StripTrim | src/utils/inputValidator.js:253-270 | stripping and trimming commute on plate text |
| Validation.RoutedPlatesValidate | src/utils/inputValidator.js:44-79 | every text the router sends to the search is accepted, with the router's cleaned digits |
| Validation.ValidateUserId | src/utils/inputValidator.js:86-110 | accepted ids are positive safe integers and keep their text |
| Validation.UserIdRoundTrip | src/utils/inputValidator.js:86-110 | the decimal form of `n` is accepted exactly for 0 < n ≤ 2^53-1, and gives back `n`; a negative `n` is `INVALID_USER_ID`, a larger one `USER_ID_OUT_OF_RANGE` |
| Validation.ValidateChatId | src/utils/inputValidator.js:118-134 | accepted exactly for an optional `-` and digits |
| Validation.ChatIdRoundTrip | src/utils/inputValidator.js:118-134 | the decimal form of every integer is accepted and gives it back |
| Validation.ValidateCallbackData | src/utils/inputValidator.js:141-170 | accepted exactly for 1-64 letters, digits, `_` and `-` |
| Validation.ValidateFieldName | src/utils/inputValidator.js:177-206 | accepted exactly for 1-50 letters and `_` |
| Validation.FieldNamesAreCallbackData | src/utils/inputValidator.js:141-206 | an accepted field name is accepted callback data |
| Validation.ToLower | src/utils/inputValidator.js:213-246 | ASCII capitals become small letters, everything else is kept |
| Validation.ValidateLanguageCode | src/utils/inputValidator.js:213-246 | an accepted code is the lower-cased input and is `he` or `en` |
| Validation.LanguageCodes | src/utils/inputValidator.js:213-246 | accepted exactly for `he` and `en` in any case; other two-letter codes are unsupported |
| Validation.ValidateMessage | src/utils/inputValidator.js:277-319 | an accepted message has a sender and a chat |
| Validation.MessageRejections | src/utils/inputValidator.js:277-314 | the first failing check gives its code: `INVALID_MESSAGE_OBJECT`, `MISSING_USER_INFO`, `MISSING_CHAT_INFO`, then the user id's code |
| Validation.MessageAcceptance | src/utils/inputValidator.js:277-319 | accepted exactly for a valid sender id and a non-zero chat id, with both ids as text |
| Validation.ValidateCallbackQuery | src/utils/inputValidator.js:326-368 | an accepted query has a sender and string data, given back |
| Validation.CallbackQueryAcceptance | src/utils/inputValidator.js:326-368 | accepted exactly for a sender id in 1..2^53-1 and 1-64 characters of `[A-Za-z0-9_-]` as data; the id comes back in decimal and the data unchanged |
| Validation.CallbackQueryRejections | src/utils/inputValidator.js:326-363 | the first failing check gives its code: `INVALID_CALLBACK_QUERY_OBJECT`, `MISSING_USER_INFO`, `MISSING_CALLBACK_DATA`, the user id's code, then the data's |
| Limiter.UserKey | src/utils/rateLimiter.js:28 | `user_` followed by the id |
| Limiter.UserKeysDistinct | src/utils/rateLimiter.js:90-92 | different ids have different keys |
| Limiter.Live | src/utils/rateLimiter.js:41-43 | exactly the time stamps inside the window, and no more of them than before |
| Limiter.LiveDropsStale | src/utils/rateLimiter.js:41-43 | a stale time stamp makes the window shorter |
| Limiter.Min | src/utils/rateLimiter.js:47 | the smallest time stamp, which is among them |
| Limiter.Decide | src/utils/rateLimiter.js:40-68 | admits exactly under the limit and appends `now` only then, with the reset time one window after the oldest kept request; when denied, the reset time is one window after the oldest live request and `retryAfter` is the wait rounded up to whole seconds |
| Limiter.DecideKeepsBound | src/utils/rateLimiter.js:46-60 | a window never holds more than the limit |
| Limiter.RetryAfterIsEnough | src/utils/rateLimiter.js:47-55 | after `retryAfter` seconds the oldest request has left the window |
| Limiter.FreshIsAdmitted | src/utils/rateLimiter.js:32-38 | a new user is admitted with limit − 1 remaining |
| Limiter.Swept | src/utils/rateLimiter.js:131-151 | a user is kept exactly when it has a live request or was created at most two windows ago, each with only its live requests |
| Limiter.WaitPartsAsWritten | src/utils/rateLimiter.js:175-176 | the minutes and seconds overshoot the wait by a minute unless it is whole minutes |
| Limiter.WaitParts | src/utils/rateLimiter.js:175-176 | minutes and seconds add up to the wait |
| Limiter.CreateLimitMessageAsWritten | src/utils/rateLimiter.js:174-189 | the notice the bot sends: its minutes and seconds add up to `retryAfter` plus a minute unless the wait is whole minutes |
| Limiter.CreateLimitMessage | src/utils/rateLimiter.js:174-189 | corrected: the notice states a split of exactly `retryAfter` seconds |
| Limiter.AsWrittenOverstatesThirtySeconds | src/utils/rateLimiter.js:175-188 | as written, a 30-second wait reads one minute and 30 seconds |
| Limiter.CorrectedWaits | src/utils/rateLimiter.js:175-176 | corrected, 30 s, 90 s and 120 s read 0:30, 1:30 and 2:00 |
| Limiter.RateLimiter.constructor | src/utils/rateLimiter.js:6-19 | a 60 s window and 10 requests unless configured, no users, the sweep scheduled |
| Limiter.RateLimiter.CheckLimit | src/utils/rateLimiter.js:26-69 | the user's window becomes `Decide`'s, and no other user changes |
| Limiter.RateLimiter.ResetUser | src/utils/rateLimiter.js:90-93 | that user's window is removed and only it |
| Limiter.RateLimiter.GetStats | src/utils/rateLimiter.js:99-125 | the user count, the users with live requests and the sum of live requests |
| Limiter.RateLimiter.Cleanup | src/utils/rateLimiter.js:131-156 | the users become `Swept` |
| Limiter.RateLimiter.Destroy | src/utils/rateLimiter.js:161-167 | no users, and the sweep is no longer scheduled |
| Caching.ExpiredKeys | src/utils/cache.js:218-222 | exactly the keys whose expiry has passed |
| Caching.SweepKeepsLiveEntries | src/utils/cache.js:214-226 | a key survives the sweep exactly when it can be looked up |
| Caching.Lookup | src/utils/cache.js:64-87 | a value exactly for a present, unexpired key |
| Caching.StoredValueReadBack | src/utils/cache.js:48-53 | a value stored with a positive TTL is read back before it expires |
| Caching.TtlFor | src/utils/cache.js:40 | the given TTL, or the cache's default when none is given |
| Caching.VictimUnique | src/utils/cache.js:238-247 | for given keys and access times there is only one victim |
| Caching.Evicted | src/utils/cache.js:249-250 | the victim, except the key `''`, which is kept |
| Caching.KeysDisjoint | src/utils/cache.js:290-301 | vehicle keys and permit keys never collide, and each kind tells plates apart |
| Caching.SimpleCache.constructor | src/utils/cache.js:6-30 | an empty cache with a 5-minute TTL and 1000 entries unless configured |
| Caching.SimpleCache.Size | src/utils/cache.js:173-175 | the number of entries |
| Caching.SimpleCache.Delete | src/utils/cache.js:115-124 | the key is removed and counted only when it was present |
| Caching.SimpleCache.EvictLRU | src/utils/cache.js:238-253 | removes the victim, unless it is `''`, and nothing else |
| Caching.SimpleCache.Set | src/utils/cache.js:38-57 | evicts a victim only at capacity, then stores the entry with its TTL; in the iteration order the victim is gone, a new key is appended and an existing key keeps its place |
| Caching.SimpleCache.MakeRoom | src/utils/cache.js:43-45 | below capacity nothing changes; at capacity the LRU victim (if any) leaves the entries, the access times and the iteration order, and the eviction is counted |
| Caching.SimpleCache.Store | src/utils/cache.js:48-56 | stores value, creation time, expiry and zero accesses under the key |
| Caching.SimpleCache.Get | src/utils/cache.js:64-87 | returns `Lookup`; a hit counts an access, an expired entry is deleted |
| Caching.SimpleCache.Has | src/utils/cache.js:94-108 | true exactly for a live key; an expired one is deleted |
| Caching.SimpleCache.Clear | src/utils/cache.js:129-134 | no entries, with the deletes counted |
| Caching.SimpleCache.CollectExpired | src/utils/cache.js:216-222 | exactly the expired keys, once each, in the Map's insertion order (`ExpiredInOrder` filters `order` by expiry) |
| Caching.SimpleCache.DeleteAll | src/utils/cache.js:224-226 | removes exactly the given keys; the survivors keep their iteration order (`WithoutAll`) |
| Caching.SimpleCache.Cleanup | src/utils/cache.js:214-232 | removes exactly the expired entries, the survivors keeping their iteration order, and counts a cleanup only when there were some |
| Caching.SimpleCache.Destroy | src/utils/cache.js:276-283 | empty, and the sweep is no longer scheduled |
| Caching.SetWithinBound | src/utils/cache.js:38-57 | from at most `maxSize` entries, a set ends with at most `maxSize + 1`, and within `maxSize` exactly when there was room, the key was stored or the eviction removed a key |
| Caching.FullCacheOverflows | src/utils/cache.js:238-253 | a one-entry cache whose entry was touched this millisecond has no victim, and a new key leaves two entries |
| Fetcher.Classify | src/services/vehicleDataService.js:227-246 | the error type for a failure; never `API_INVALID_RESPONSE` |
| Fetcher.ClassifyExactly | src/services/vehicleDataService.js:227-246 | each type for exactly its failures: timeout codes, then DNS or refused connection, then status 429, ≥500, 404 or any other, and `UNKNOWN_ERROR` for neither code nor response |
| Fetcher.RetryableByType | src/services/vehicleDataService.js:209-220 | `_isRetryableError` (`IsRetryable`) holds, apart from the DNS and refused-connection codes, exactly for a timeout, rate-limit or server type |
| Fetcher.RetryableAgreesWithTable | src/services/vehicleDataService.js:209-246 | retrying agrees with the error table except for the network errors and the invalid response |
| Fetcher.Call | src/services/vehicleDataService.js:150-157 | a call throws exactly on a failure or an answer without `success` |
| Fetcher.Request | src/services/vehicleDataService.js:148-170 | at most `maxRetries` calls, waits of 1 s, 2 s, …, retried only on retryable failures |
| Fetcher.MakeApiRequest | src/services/vehicleDataService.js:148-170 | the loop's run equals `Request` |
| Fetcher.InvalidResponseNotRetried | src/services/vehicleDataService.js:152-168 | an answer without `success` ends the request after one call, as `UNKNOWN_ERROR` |
| Fetcher.NonRetryableOnce | src/services/vehicleDataService.js:159-168 | a non-retryable failure ends the request after one call |
| Fetcher.RetriesExhausted | src/services/vehicleDataService.js:159-168 | retryable failures throughout make exactly `maxRetries` calls |
| Fetcher.FirstVehicle | src/services/vehicleDataService.js:66-69 | the first record as a vehicle, none for no records |
| Fetcher.VehicleDataService.constructor | src/services/vehicleDataService.js:10-34 | three tries unless configured, and an empty cache of 500 entries |
| Fetcher.VehicleDataService.GetCached | src/services/vehicleDataService.js:54 | the cache's `Lookup`; only the key itself may be dropped (when expired), every other entry stays as it was |
| Fetcher.VehicleDataService.PutCached | src/services/vehicleDataService.js:72 | the value is stored for the default TTL; no other key appears and every other remaining entry is unchanged, and none is lost while the cache is below its size |
| Fetcher.VehicleDataService.SearchVehicle | src/services/vehicleDataService.js:41-81 | validation error with the cache untouched, truthy cache hit, or the request's first vehicle, cached; keys other than the plate's vehicle key keep their entries, and none is lost on a hit or below the size limit |
| Fetcher.VehicleDataService.FetchVehicle | src/services/vehicleDataService.js:61-80 | on a miss: as many calls as the retry run made; its error is rethrown with the cache untouched, otherwise its first vehicle (or `null`) is returned and cached under the key for the default time; other keys keep their entries |
| Fetcher.VehicleDataService.CheckDisabilityPermit | src/services/vehicleDataService.js:88-123 | `false` with the cache untouched for an invalid plate; any cached flag; otherwise `false` for a failed request, or "records came back", cached; keys other than the plate's permit key keep their entries |
| Fetcher.VehicleDataService.SearchByKey | src/services/vehicleDataService.js:53-80 | a truthy hit is returned without a call; a miss makes the retry run and rethrows its error or caches its first vehicle; only the given key changes |
| Fetcher.VehicleDataService.PermitByKey | src/services/vehicleDataService.js:98-122 | a cached flag is returned without a call; a miss makes the retry run, answers `false` on its error, or caches and returns "records came back"; only the given key changes |
| Settings.FieldNamesDistinct | src/models/UserSettings.js:11-25 | the thirteen field names are distinct |
| Settings.DescriptionsMatchFields | src/models/UserSettings.js:110-126 | every field has a description, and only fields do |
| Settings.DefaultFlags | src/models/UserSettings.js:37-58 | the first nine fields are on by default, the last four off |
| Settings.DisplayFieldsFrom | src/models/UserSettings.js:11-25 | a flag for every field and nothing else |
| Settings.Construct | src/models/UserSettings.js:6-32 | a well-formed record: a flag for every field |
| Settings.ConstructorDefaults | src/models/UserSettings.js:6-32 | without input: Hebrew, the default flags, notifications on, compact off, created and updated now |
| Settings.ConstructorLanguage | src/models/UserSettings.js:8 | the given language, Hebrew when none is given |
| Settings.ConstructorFlags | src/models/UserSettings.js:11-25 | a given flag wins; a missing one takes the default |
| Settings.FromJsonState | src/models/UserSettings.js:146-154 | a well-formed record of the same user, updated now |
| Settings.JsonRoundTrip | src/models/UserSettings.js:131-154 | reading back what `toJSON` (`UserSettings.ToJson`) wrote gives the same record, apart from the update time |
| Settings.SetField | src/models/UserSettings.js:63-70 | true exactly for a known field, which takes the value; no other field changes; an unknown name changes nothing |
| Settings.ApplyUpdates | src/services/userSettingsService.js:103-107 | a change exactly when some name is known; only the flags and the update time can change |
| Settings.LastUpdateWins | src/services/userSettingsService.js:103-107 | a field not named keeps its flag; a known field takes the value of its last update |
| Settings.ResetIsFreshDefaults | src/models/UserSettings.js:75-82 | a reset record is a new record of the same user and creation time |
| Settings.EnabledAmong | src/models/UserSettings.js:87-91 | exactly the names that are on, without repeats |
| Settings.EnabledFieldsExactly | src/models/UserSettings.js:87-105 | `getEnabledFields` (`EnabledFields`) lists a field, once, exactly when its flag is on |
| Settings.EnabledCount | src/models/UserSettings.js:96-98 | the count is the number of fields that are on, at most 13 |
| Settings.Summary | src/models/UserSettings.js:159-170 | the language's display name and the number of fields |
| Settings.SummaryBounds | src/models/UserSettings.js:159-170 | 13 fields, and the enabled count is the number of fields that are on |
| Settings.UserSettings.constructor | src/models/UserSettings.js:6-32 | the object's state is `Construct` |
| Settings.UserSettings.FromJson | src/models/UserSettings.js:146-154 | the object's state is `FromJsonState` |
| Settings.UserSettings.UpdateDisplayField | src/models/UserSettings.js:63-70 | the state and the result are `SetField`'s |
| Settings.UserSettings.ResetToDefaults | src/models/UserSettings.js:75-82 | the state becomes the reset state |
| SettingsService.Loaded | src/services/userSettingsService.js:19-41 | a well-formed record updated now: the stored user's, or a new one for an unknown or missing id |
| SettingsService.Opened | src/services/userSettingsService.js:19-41 | the storage after a read: existing entries unchanged, a new user added |
| SettingsService.Saved | src/services/userSettingsService.js:48-65 | the record is stored under its user and nothing else changes; a record without a user id changes nothing |
| SettingsService.OldUsers | src/services/userSettingsService.js:318-327 | exactly the users not updated within the age |
| SettingsService.ReadIsStable | src/services/userSettingsService.js:19-35 | a second read gives the same record and storage |
| SettingsService.SaveThenLoad | src/services/userSettingsService.js:26-65 | a saved record is read back |
| SettingsService.UpdateThenRead | src/services/userSettingsService.js:74-89 | after updating a field, a read shows the new value |
| SettingsService.Grown | src/services/userSettingsService.js:59 | a first save appends the user to the key order |
| SettingsService.Recent | src/services/userSettingsService.js:316-327 | the users kept by the cleanup, in key order |
| SettingsService.Outdated | src/services/userSettingsService.js:316-327 | the users removed by the cleanup, in key order |
| SettingsService.RecentAppend | src/services/userSettingsService.js:316-327 | the kept users of a longer order extend those of the shorter |
| SettingsService.OutdatedAppend | src/services/userSettingsService.js:316-327 | the removed users of a longer order extend those of the shorter |
| SettingsService.UserSettingsService.constructor | src/services/userSettingsService.js:8-12 | an empty store |
| SettingsService.UserSettingsService.GetUserSettings | src/services/userSettingsService.js:19-41 | the record is `Loaded`, the storage `Opened`, and a new user is appended to the key order |
| SettingsService.UserSettingsService.SaveUserSettings | src/services/userSettingsService.js:48-65 | succeeds exactly for a record with a user id; the record gets the new time and the storage becomes `Saved` |
| SettingsService.UserSettingsService.UpdateDisplayField | src/services/userSettingsService.js:74-89 | the loaded record with `SetField` applied, saved |
| SettingsService.UserSettingsService.UpdateMultipleDisplayFields | src/services/userSettingsService.js:97-119 | the loaded record with `ApplyUpdates` applied, saved |
| SettingsService.UserSettingsService.ResetUserToDefaults | src/services/userSettingsService.js:126-137 | the loaded record reset and saved |
| SettingsService.UserSettingsService.UpdateUserLanguage | src/services/userSettingsService.js:145-161 | `he` and `en` are stored; other codes are refused and change nothing |
| SettingsService.UserSettingsService.UpdateCompactMode | src/services/userSettingsService.js:169-181 | the compact flag is stored |
| SettingsService.UserSettingsService.DeleteUserSettings | src/services/userSettingsService.js:188-199 | true exactly when the user was stored, and the user is gone |
| SettingsService.UserSettingsService.GetAllUserIds | src/services/userSettingsService.js:205-212 | the stored users in insertion order, each exactly once |
| SettingsService.UserSettingsService.ImportUserSettings | src/services/userSettingsService.js:286-303 | stores the record, read back as by `fromJSON`, exactly when it carries the given user id |
| SettingsService.UserSettingsService.CleanupOldSettings | src/services/userSettingsService.js:310-334 | exactly `OldUsers` are removed, and their number is returned |
| SettingsService.UserSettingsService.DeleteOutdated | src/services/userSettingsService.js:318-327 | removes the outdated users and keeps the rest |
| Vehicles.FieldOf | src/models/VehicleData.js:8-23 | `''` exactly for a missing or falsy column; a string column is copied |
| Vehicles.FromApi | src/models/VehicleData.js:6-27 | the vehicle keeps the raw record |
| Vehicles.ManufacturerFromTozeretNm | src/models/VehicleData.js:9 | the manufacturer is the `tozeret_nm` column |
| Vehicles.ValidFromApi | src/models/VehicleData.js:150-152 | `isValid` (`IsValid`) holds exactly when the record has a plate number and a manufacturer or a model name |
| Vehicles.Table | src/models/VehicleData.js:76-95 | English codes map to their Hebrew names, Hebrew names to themselves, and nothing else is a key |
| Vehicles.Translate | src/models/VehicleData.js:96 | a known code becomes its non-empty name; any other value that is not an inherited `Object.prototype` name passes through |
| Vehicles.TranslateIdempotent | src/models/VehicleData.js:75-131 | translating twice equals translating once |
| Vehicles.TableClosed | src/models/VehicleData.js:75-131 | a table built from Hebrew names that are not English keys is closed: translating a name keeps it |
| Vehicles.ColorMapClosed | src/models/VehicleData.js:76-96 | the colour table is closed |
| Vehicles.FuelMapClosed | src/models/VehicleData.js:103-115 | the fuel table is closed |
| Vehicles.OwnershipMapClosed | src/models/VehicleData.js:122-130 | the ownership table is closed |
| Vehicles.TranslatesColor | tests/models/VehicleData.test.js:82-83 | `WHITE` becomes `לבן` |
| Vehicles.KeepsHebrewColor | tests/models/VehicleData.test.js:90 | `לבן` stays `לבן` |
| Vehicles.KeepsUnknownColor | tests/models/VehicleData.test.js:96 | `PURPLE` passes through |
| Vehicles.TranslatesFuel | tests/models/VehicleData.test.js:104 | `DIESEL` becomes `דיזל` |
| Vehicles.LineHead | src/models/VehicleData.js:37-69 | each display line is non-empty and does not start like the no-data text |
| Vehicles.ShownAmong | src/models/VehicleData.js:37-67 | exactly the selected fields that have a value, without repeats |
| Vehicles.HebrewDisplayLines | src/models/VehicleData.js:34-70 | `toHebrewDisplay` (`HebrewDisplay`) shows exactly the selected fields with values, without repeats, and is the no-data text exactly when none is shown |
| Vehicles.TitleParts | src/models/VehicleData.js:158-161 | exactly the non-empty ones of manufacturer, model and year, in that order |
| Vehicles.TitleShape | src/models/VehicleData.js:157-164 | `getTitle` (`Title`) is the non-empty of manufacturer, model and year joined by single spaces, in each of the eight cases, or `רכב` and the plate when all are empty |
| Formatter.ErrorMessageText | src/utils/messageFormatter.js:161-182 | the invalid-plate text for an invalid plate; the generic text for every type without its own |
| Formatter.FormatErrorMessage | src/utils/messageFormatter.js:161-199 | a retry button exactly when the type is not an invalid plate, then new search and help; every button has a route |
| Formatter.Status | src/utils/messageFormatter.js:251-252 | `✅` exactly when the field is on |
| Formatter.FormatFieldsMenu | src/utils/messageFormatter.js:242-274 | one toggle button per field with its status, then save and back |
| Formatter.FieldsMenuRoutesBack | src/utils/messageFormatter.js:255-258 | each field button routes to a toggle of its own field |
| Formatter.FieldsMenuRoutable | src/utils/messageFormatter.js:242-274 | every button of the menu has a route |
| Formatter.FormatLanguageMenu | src/utils/messageFormatter.js:317-344 | one button per language, marked exactly when it is the current one, and back |
| Formatter.LanguageMenuRoutesBack | src/utils/messageFormatter.js:329-337 | each language button routes to setting that language |
| Formatter.ResultsKeyboardRoutable | src/utils/messageFormatter.js:123-134 | every button under the results has a route |
| Formatter.ResultBody | src/utils/messageFormatter.js:102-105 | empty exactly when no field is shown |
| Formatter.PermitSection | src/utils/messageFormatter.js:108-115 | empty exactly when the permit field is off; otherwise the line for the flag |
| Formatter.FormatVehicleResults | src/utils/messageFormatter.js:92-136 | the not-found message without a valid vehicle; otherwise Markdown with the header first, the time last and the results keyboard |
| Formatter.TruncateText | src/utils/messageFormatter.js:398-404 | text within the limit is unchanged; longer text becomes a prefix and `...`, the limit long |
| Formatter.TruncateFits | src/utils/messageFormatter.js:398-404 | the result never exceeds the limit, and truncating twice equals truncating once |
| Formatter.Escape | src/utils/messageFormatter.js:388 | escaping never shortens the text |
| Formatter.UnescapeEscape | src/utils/messageFormatter.js:388 | removing the backslashes gives back the original |
| Formatter.SanitizeText | src/utils/messageFormatter.js:381-390 | `''` for a missing or non-string text; otherwise no leading or trailing space |
| Formatter.EscapeTrim | src/utils/messageFormatter.js:387-389 | trimming and escaping commute |
| Formatter.SanitizeRoundTrip | src/utils/messageFormatter.js:381-390 | the result is the trimmed text escaped, and unescaping it gives the trimmed text |
| Errors.InfoDomain | src/utils/errorHandler.js:12-70 | the table has an entry exactly for the ten types |
| Errors.TypeOf | src/utils/errorHandler.js:131 | a missing type is `UNKNOWN_ERROR` |
| Errors.IsRetryableError | src/utils/errorHandler.js:130-134 | retryable exactly for the five retryable types |
| Errors.GetErrorInfo | src/utils/errorHandler.js:251-254 | the type's entry, or `UNKNOWN_ERROR`'s |
| Errors.RetryableAgreesWithInfo | src/utils/errorHandler.js:130-134 | `isRetryableError` agrees with the entry's flag |
| Errors.UserMessageTypes | src/utils/errorHandler.js:260-276 | which formatter type each error type is shown as |
| Errors.UserMessageRetry | src/utils/errorHandler.js:260-276 | `createUserMessage` (`CreateUserMessage`) shows only an invalid plate without a retry button |
| Errors.CreateCustomErrorMessage | src/utils/errorHandler.js:152-170 | the text after a cross, an optional retry row, then new search and help |
| Errors.CustomRetryIsUnrouted | src/utils/errorHandler.js:155-159 | the custom retry button has no route |
| Errors.CreateError | src/utils/errorHandler.js:332-337 | message and type, overridden by the additional data |
| Errors.Counted | src/utils/errorHandler.js:241-245 | one more for the type, the other counts unchanged |
| Errors.CountedTotal | src/utils/errorHandler.js:188 | counting an error adds exactly one to the total |
| Errors.TypeStatsOf | src/utils/errorHandler.js:180-184 | the given count, with the table's severity and flag, or `unknown` and `false` |
| Errors.ErrorHandler.constructor | src/utils/errorHandler.js:72-73 | no statistics |
| Errors.ErrorHandler.UpdateErrorStats | src/utils/errorHandler.js:241-245 | the statistics become `Counted` |
| Errors.ErrorHandler.LogError | src/utils/errorHandler.js:120-123 | only the statistics change, by one count |
| Errors.ErrorHandler.HandleError | src/utils/errorHandler.js:85-113 | counts the error, builds its user message, and succeeds exactly when it was sent |
| Errors.ErrorHandler.GetErrorStats | src/utils/errorHandler.js:176-192 | the total of the counts and one entry per counted type |
| Errors.ErrorHandler.ResetErrorStats | src/utils/errorHandler.js:197-199 | no statistics, total 0 |
| PlateHandler.SearchKey | src/handlers/licensePlateHandler.js:31 | the user id, `_` and the plate |
| PlateHandler.SearchKeyInjective | src/handlers/licensePlateHandler.js:31 | for numeric user ids, one key means one user and one plate |
| PlateHandler.LicensePlateHandler.constructor | src/handlers/licensePlateHandler.js:11-20 | no search is active |
| PlateHandler.LicensePlateHandler.IsSearchActive | src/handlers/licensePlateHandler.js:305-308 | true exactly when the key is held |
| PlateHandler.LicensePlateHandler.ClearActiveSearches | src/handlers/licensePlateHandler.js:295-297 | no search is active |
| PlateHandler.LicensePlateHandler.Acquire | src/handlers/licensePlateHandler.js:35-41 | takes the key exactly when it was free |
| PlateHandler.LicensePlateHandler.PerformSearch | src/handlers/licensePlateHandler.js:197-224 | the permit is checked exactly when a vehicle was found; an invalid plate fails with its code; otherwise the cached vehicle is used, or the API run's error type is rethrown, or its first vehicle (or none) is returned; the permit flag is the permit run's "records came back" on a permit miss and the cached flag on a permit hit that no eviction can reach; only the plate's vehicle and permit keys change |
| PlateHandler.LicensePlateHandler.WithPermit | src/handlers/licensePlateHandler.js:209-218 | the permit is checked exactly when a vehicle was found, and the results carry that vehicle; with no vehicle the flag is `false` and the cache untouched |
| PlateHandler.LicensePlateHandler.AskPermit | src/handlers/licensePlateHandler.js:212 | the permit flag as seen from the cache before the vehicle search: the permit run's answer on a miss, the cached flag on a hit that no eviction can reach; only the plate's two keys change |
| PlateHandler.PermitAcrossSearch | src/handlers/licensePlateHandler.js:207-212 | a permit entry absent before the vehicle search is absent after it, one present survives it unless an eviction could reach it, and the two searches together change only the plate's two keys |
| PlateHandler.LicensePlateHandler.Report | src/handlers/licensePlateHandler.js:53-71 | success exactly when the search completed and the update was delivered; then no error is counted, otherwise exactly one, under the search's error type, or under the empty type for a failed update |
| PlateHandler.LicensePlateHandler.RunSearch | src/handlers/licensePlateHandler.js:43-71 | `SearchOutcome`: success exactly when the send, the validation, the vehicle search (cache or API) and the update all succeed; a failure counts one error under its type (empty for a send or update, the validator's code, or the API run's error type); the cache is untouched for a failed send or an invalid plate, and otherwise only the plate's two keys change |
| PlateHandler.LicensePlateHandler.HandleLicensePlateSearchAsWritten | src/handlers/licensePlateHandler.js:30-77 | as written, the key is released even on the duplicate path; a duplicate fails with the cache untouched and counts an error only when its notice fails; a free key gives `SearchOutcome` |
| PlateHandler.LicensePlateHandler.HandleLicensePlateSearch | src/handlers/licensePlateHandler.js:30-77 | the held keys are as before; a duplicate fails with the cache untouched and counts an error only when its notice fails; a free key gives `SearchOutcome`: success exactly when every step does, each failure counted once under its type, only the plate's two cache keys changed |
| PlateHandler.DuplicateDuringSearchAsWritten | src/handlers/licensePlateHandler.js:33-76 | as written, a duplicate request frees the first search's key |
| PlateHandler.DuplicateDuringSearch | src/handlers/licensePlateHandler.js:33-76 | corrected, the first search keeps its key |
| Bot.Dispatch | src/bot/index.js:232-346 | a handler exactly for the actions other than the routing error, each the handler method of the action's own name (the unsupported message goes to `handleUnsupportedMessage`) |
| Bot.DispatchCoversRouter | src/bot/index.js:232-346 | every routed action except the routing error has a handler of the result's category |
| Bot.UptimeClock | src/bot/index.js:377-381 | days, hours, minutes and seconds add up to the uptime |
| Bot.FormatUptime | src/bot/index.js:377-392 | `d h m` once a day has passed, else `h m`, `m s` or `s`, from the clock's parts |
| Bot.UptimeExamples | tests/bot/index.test.js:355-358 | 1 s, 61 s, 1 h 1 min 1 s and 1 d 1 h 1 min 1 s as text |
| Bot.BotManager.constructor | src/bot/index.js:15-45 | zero counters, no activity, the rate limiter's settings |
| Bot.BotManager.ExecuteAction | src/bot/index.js:232-346 | the handler's completion, or `false` with the error logged |
| Bot.BotManager.CountError | src/bot/index.js:187-190 | one error handled and counted |
| Bot.BotManager.Admit | src/bot/index.js:169-170 | the sender's window is advanced by `Decide`, and only it; the sweep timer stays as it was |
| Bot.BotManager.HandleMessage | src/bot/index.js:156-193 | counted and stamped; a rejected message is not routed; an accepted one advances its sender's window by `Decide` and is routed, through `RouteMessage`, exactly when admitted, and a limited one gets `createLimitMessage`'s text as written; the error statistics gain exactly one count for a failed log, a failed limit notice, an unknown action or a thrown handler (under its type), and are otherwise unchanged; the sweep timer stays |
| Bot.BotManager.HandleCallbackQuery | src/bot/index.js:199-226 | counted and stamped, then routed without validation or rate limiting; an error with no chat to answer escapes; the error statistics gain exactly one count for a failed log, an unknown action or a thrown handler (under its type), and are otherwise unchanged |
| Bot.BotManager.ResetStats | src/bot/index.js:427-437 | the counters and error statistics are cleared |
| Bot.NewBotManager | src/bot/index.js:15-18 | a missing token throws `Bot token is required` |

## Left out

- Vehicles.Translate: the tables are maps, so a value naming an inherited `Object.prototype`
  member (`constructor`, `toString`, `hasOwnProperty`, `__proto__` and the like) passes through
  unchanged, while `colorMap[color] || color` (src/models/VehicleData.js:96, :115, :130) returns
  that member, a function or object that is not a string; the model has no value for it.
- Telegram I/O: sending, editing and polling are left out. Whether a send succeeds is a
  parameter. The polling and webhook listeners, `start`, `stop`, `healthCheck` and
  `getStats` of the bot are left out.
- The command and settings handlers are not part of this model. The bot's calls to them are
  a completion parameter.
- Bot.BotManager.HandleMessage and Bot.BotManager.HandleCallbackQuery: the licence-plate
  search they dispatch to is a completion parameter too, not tied to the `PlateHandler`
  model. So the bot admits a `Threw` from that handler, which catches its own errors.
- PlateHandler.LicensePlateHandler.RunSearch: leaves out the `getUserSettings(userId)` read
  (licensePlateHandler.js:50). The settings only shape the reply. Its side effect, storing
  defaults for a new user, is not modelled here; `SettingsService.UserSettingsService.GetUserSettings`
  models it.
- `handleInvalidLicensePlate`, `handleCancelSearchCallback`, `handleRetrySearchCallback` and
  `_updateMessageWithResults` are left out. They are Telegram output only.
- Other Telegram-output formatters are left out: welcome, help, searching, settings menu,
  save and reset confirmations, and the inline-button helpers.
- Statistics that only report are left out: `getServiceStats`, `exportUserSettings`,
  `getValidationStats`, `getSearchStats`, `getRoutingStats`, the cache's `getInfo`,
  `getStats` and `resetStats`, and `createErrorContext`.
- `wrapWithErrorHandling` is left out. It only re-throws with extra context.
- Floating-point averages and hit rates are left out.
- Locale date and time texts are `dateText`/`timeText` parameters.
- Timers (`setInterval`, `_delay`) become `now`, a `sweepScheduled` flag and the recorded
  list of waits.
- The `default:` branch of `_executeAction` is unreachable from router output, because the
  model's actions are the router's datatype.
- The error type passed to `logError` for a missing handler is `''` here, i.e. `UNKNOWN_ERROR`.
- Log output (`console.*`) is left out. `_logError`'s severity switch only chooses a log
  level.
- Fetcher.VehicleDataService.SearchVehicle: needs at least max(1, maxRetries) oracle
  outcomes, so a request never runs out of answers.
- Fetcher.VehicleDataService.CheckDisabilityPermit: the same requirement on its oracle.
- PlateHandler.LicensePlateHandler.PerformSearch: when a permit entry was cached but the cache
  was full and the vehicle missed, storing the vehicle may evict that entry, so the permit
  check then misses and asks the API; the contract does not say which flag results then.
- Fetcher.Classify: the `ensures` names the set of possible types. The per-type case split
  is `ClassifyExactly`. `API_ERROR` is not in the error table.
- Validation.RoutedPlatesValidate: holds for text of at most 4000 characters, where the
  validator does not truncate.
- Validation.ToLower: lower-cases ASCII letters only; JavaScript's full Unicode case mapping
  is not modelled.
- String lengths are counted in code points, not UTF-16 units.
- Telegram ids are unbounded integers and stored user ids are `nat`. API numbers are integers.
- SettingsService.UserSettingsService.CleanupOldSettings: the cutoff is `now` minus whole
  days of 86400000 ms. The code's `setDate(getDate() - daysOld)` counts local calendar days,
  which differ by an hour across a daylight-saving change; time zones are not modelled.
- SettingsService.UserSettingsService.CleanupOldSettings: the code skips a record whose
  `updatedAt` is falsy (userSettingsService.js:320). Every stored record is a `toJSON` of a
  `UserSettings` whose `updatedAt` is a `Date`, always truthy, so the model has no such record.
- Formatter.Escape: its own `ensures` gives only the length bound. The content is stated by
  `UnescapeEscape`.

## Findings

| source | as written | input that shows it | evidently intended | confidence | as-written member | corrected member |
|---|---|---|---|---|---|---|
| src/utils/rateLimiter.js:175-176 | minutes are `Math.ceil(retryAfter / 60)`, and the seconds `retryAfter % 60` are added on top | `retryAfter` = 30 reads "1 minutes and 30 seconds" | whole minutes (`floor`), so the parts add up to the wait | not executed | Limiter.AsWrittenOverstatesThirtySeconds | Limiter.CorrectedWaits |
| src/handlers/licensePlateHandler.js:33-76 | the duplicate check's `return false` is inside the `try`, so the `finally` deletes the key held by the search already under way | user 42 sends plate 1234567 twice; the second arrives while the first awaits the API | a rejected duplicate leaves the key to the search that holds it | not executed | PlateHandler.DuplicateDuringSearchAsWritten | PlateHandler.DuplicateDuringSearch |
