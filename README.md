# GGMPlus attendance extension — a verified model

GGMPlus is a browser extension that checks in daily on the `ggm.gondr.net`
attendance API. It has three cooperating parts, and this project models the
decision logic of each.

- **Page script** (`content_script.js`). It runs inside the site. It looks
  for the user's bearer token in localStorage, then sessionStorage, then the
  `__INITIAL_STATE__` and `__NUXT__` globals. It interprets stored values that
  may be JSON, attaches the user profile and posts a `TOKEN_UPDATE` message to
  the service worker. It rescans whenever a watched key is written.
- **Service worker** (`background.js`). It keeps the credential and the
  attendance log in the extension's key-value store. On every alarm, or on a
  manual request, it:
  - sends the attendance request, with one background refresh of the token
    when it has none;
  - decodes and classifies the reply as success, "already done today" or
    failure;
  - drops the credential on 401/403;
  - records the result in a log capped at 100 entries, newest first.
- **Settings page** (`settings.js`). It validates the alarm settings and
  renders the log.

Modules:

| file | module | models |
|---|---|---|
| `wrappers.dfy` | `Wrappers` | `Option` |
| `text.dfy` | `Text` | decimal text of numbers, ASCII case folding, substring search, `split(sep)[0]` |
| `json.dfy` | `Json` | JSON values with JavaScript truthiness, property lookup, `Object.keys` order, `String(v)`, `a \|\| b` |
| `messages.dfy` | `Messages` | the `TOKEN_UPDATE` payload and the guard that decides whether it is posted |
| `harvester.dfy` | `Harvester` | the page script: pure lookups plus class `Page` (its storages and the posted messages) |
| `background.dfy` | `Background` | the service worker: pure specification functions plus class `Worker` (store, log, effects, alarm) |
| `settings.dfy` | `Settings` | settings validation, `truncate`, log rendering |
| `flow.dfy` | `Flow` | properties of the page script and the worker together |

How the browser is abstracted:

- **Storage.** `chrome.storage.local` is the map `Worker.store`, except
  `attendanceHistory`, which is the sequence `Worker.history`.
- **Effects.** Notifications, the attendance request and the refresh tab's
  opening and closing are appended to `Worker.events`. Messages the page
  posts are appended to `Page.sent`.
- **Inputs.** Each world reading is a parameter:
  - the clock (`Clock`);
  - the XSRF cookie and the network reply (`Attempt`);
  - what the refresh tab's page posted (`Refresh`);
  - `JSON.parse` (a `Parser` function).
- **`sendAttendance` as a specification.** The routine is the pure function
  `Background.Attend` on a `Snapshot` of the worker. The recursive method
  `Background.Worker.SendAttendance` is proved to compute exactly
  `Attend`. The lemmas about the routine are stated about `Attend`.
- **Dead branch.** `autoRefresh` is the constant `true` in the source, so
  the branch of `refreshTokenAutomatically` that it switches off is not
  modelled.

## Model

| member | source | states |
|---|---|---|
| Text.NatToString | background.js:230 | the decimal text of a status code: non-empty, all digits, no leading zero |
| Text.DigitsRoundTrip | background.js:230 | reading the decimal text of `n` back gives `n` |
| Text.IntToString | background.js:181 | `String(n)` for an integer: a leading minus exactly for negatives |
| Text.FoldAscii | background.js:238-240 | case folding maps each of `A`–`Z` to its own lower-case letter (code point plus 32), leaves every other character alone, and never yields a capital |
| Text.ContainsFoldedFromSpec | background.js:238-240 | the search from position `i` succeeds iff the needle occurs, ignoring case, at some position `j >= i` |
| Text.ContainsFoldedSpec | background.js:238-240 | the case-insensitive search succeeds iff the needle occurs, ignoring case, somewhere in the text |
| Text.Before | background.js:290 | `split("T")[0]`: a prefix of the text without `T`, ended by `T` when shorter |
| Json.GetField | content_script.js:76-79 | property lookup returns the value of the first field with that name (no earlier field has it), and `None` iff no field has it |
| Json.Or | background.js:28-29 | `a \|\| b` is `a` when `a` is truthy, `b` otherwise |
| Json.FirstTruthy | content_script.js:79 | `v.k1 \|\| ... \|\| null` (the expiry of a stored token object, and the user name at background.js:413): `null` exactly when no member is truthy, otherwise truthy |
| Json.FirstTruthyIsFirst | content_script.js:79 | a non-null result is the member of the first key, in order, whose member is truthy |
| Json.FirstTruthyIndex | content_script.js:79 | a non-null result sits under some key, and the members of every key before it are falsy |
| Json.Entries | content_script.js:145 | `Object.keys` order: an object's fields in order, an array's items under their decimal indices |
| Json.ToText | background.js:181 | `String(v)`, kind by kind: `null`, `true`/`false`, the decimal digits of a number, a string unchanged, `[object Object]`, and an array's items joined by `,` with `null` items written empty; template interpolation of the token |
| Messages.Dispatch | content_script.js:187-197 | at most one message is posted, exactly when there is a discovery with a truthy token, and it is that discovery |
| Harvester.FirstIndex | content_script.js:39-45 | the index of the first key satisfying the test, or the length when none does |
| Harvester.ParseTokenValue | content_script.js:66-93 | unparsable text and primitives are the token themselves with no expiry; an object yields its first truthy token field in priority order with its expiry, or the raw text when it has none |
| Harvester.ProbeStorage | content_script.js:38-61 | the parsed value of the first token key holding a non-empty value; `None` iff no key holds one |
| Harvester.FindTokenInStorage | content_script.js:38-61 | the key loop with early return computes exactly the storage probe |
| Harvester.ProbeFindsFirstKey | content_script.js:39-45 | when the `n`-th token key is the first holding a value, the probe interprets exactly that value |
| Harvester.FindTokenInObject | content_script.js:140-157 | `None` past depth 5 or for a non-object; any result is longer than 20 characters |
| Harvester.FindFrom | content_script.js:145-156 | the key loop from the `i`-th key: same guards, and any result is longer than 20 characters |
| Harvester.Candidates | content_script.js:140-157 | every listed hit is a token field (`token`, `access_token`, `accessToken`, `jwt`, `bearer`) holding a string longer than 20, reached within the depth bound |
| Harvester.CandidatesFrom | content_script.js:145-156 | the same for the keys from the `i`-th on |
| Harvester.FindIsFirstCandidate | content_script.js:140-157 | the search returns the first hit in depth-first pre-order: a key's own match before anything below it |
| Harvester.HitIsListed | content_script.js:140-157 | every token field reachable within the depth bound is among the candidates |
| Harvester.HitIsListedFrom | content_script.js:145-156 | the same for the hits under the `i`-th key or later |
| Harvester.HitBelowIsListed | content_script.js:150-152 | a token field below the `i`-th member is listed among that member's candidates, reached through `i` |
| Harvester.FindSucceedsIffReachable | content_script.js:140-157 | the search finds a token exactly when some token field is reachable within the depth bound |
| Harvester.FindFromIsFirstCandidate | content_script.js:145-156 | the same for the loop from the `i`-th key |
| Harvester.DescentIsFirstCandidate | content_script.js:150-153 | for a member the search descends into, a token found below it comes before every hit of the later keys |
| Harvester.FoundTokenIsStored | content_script.js:146-147 | a found token is stored, at some path, under a token field |
| Harvester.FindTokenInWindow | content_script.js:99-135 | `__INITIAL_STATE__` is searched before `__NUXT__`; when the former is falsy or yields nothing, the latter's find is the result; `None` iff neither finds a token; the result carries no expiry |
| Harvester.ProbeProfile | content_script.js:166-182 | the first profile key whose value parses to a non-null object; unparsable and primitive values are skipped |
| Harvester.FindUserInfo | content_script.js:166-182 | the key loop computes exactly the profile probe |
| Harvester.DiscoveryOrder | content_script.js:210-230 | localStorage, then sessionStorage, then the globals, each consulted only when the earlier ones found nothing; the profile is attached to what was found |
| Harvester.FirstSourceOrder | content_script.js:213-224 | before the profile is attached, the result is the first of the storage probes and the globals search that yields anything, and it carries no profile |
| Harvester.ProfileAttached | content_script.js:227-230 | attaching the profile changes nothing but the profile, and only when something was found and a profile exists |
| Harvester.Page.constructor | content_script.js:210 | a page with the given storages and globals that has posted nothing |
| Harvester.Page.SendTokenToBackground | content_script.js:187-197 | posts the discovery unless it is missing or its token is falsy |
| Harvester.Page.FindAndSendToken | content_script.js:210-240 | returns the discovery and posts it through the guard |
| Harvester.Page.ScanSources | content_script.js:213-224 | the three reassignments of `tokenData` compute the first source that yields anything |
| Harvester.Page.ScanPage | content_script.js:213-230 | the three lookups and the profile lookup compute exactly the discovery |
| Harvester.Page.SetItem | content_script.js:260-269 | the write always happens, first; a rescan and post follow only for token and profile keys |
| Harvester.Page.OnStorageEvent | content_script.js:249-255 | a rescan and post happen only for token and profile keys |
| Harvester.LocalShadowsLaterSources | content_script.js:213-224 | when localStorage yields anything, sessionStorage and the globals do not affect the result |
| Harvester.FirstTokenKeyWins | content_script.js:38-47 | a value under `token`, the first key, is the one interpreted |
| Harvester.FalsyStoredTokenBlocksFallback | content_script.js:38-47 | a token key whose value parses to a falsy non-object (`null`, `0`, `false`, `""`) is the discovery, with that value as its token and no expiry, so later sources are skipped and nothing is posted |
| Background.GetAlarmConfig | background.js:25-31 | the stored delay and period when truthy, else 1 and 60; the name is always `attendanceAlarm` |
| Background.BearerToken | background.js:51-71 | none when the token is absent or falsy, or when a truthy expiry is strictly before now; otherwise the stored token |
| Background.ExpiredStaysExpired | background.js:61 | an expired token stays expired as time goes on |
| Background.ApplyTokenUpdate | background.js:402-424 | the token, its expiry (or `null`) and the update time are written; the profile and name only for a truthy profile; the key set grows by exactly those keys and no other key changes |
| Background.TokenUpdateRoundTrip | background.js:51-71 | after a `TOKEN_UPDATE`, the next lookup returns the delivered token iff it is truthy and its expiry has not passed |
| Background.GetStatus | background.js:436-458 | `hasToken` iff a truthy token is stored; `todayChecked` iff the stored date is today's; `userName` is the stored name when truthy and `null` otherwise; the last attempt, last success and last result as stored |
| Background.StatusIgnoresExpiry | background.js:449 | status reports a token as held even when the lookup rejects it as expired |
| Background.MakeRecord | background.js:288-304 | attempt time, result and message always; success time, today's date and the already-checked flag exactly on success |
| Background.RecordFields | background.js:289-319 | the keys written to the store: the four attempt keys, plus the four success keys only on success, each holding the record's own value (times, flag, message, day, already-checked flag) |
| Background.Logged | background.js:307-314 | the new record is first, followed by the old log with at most its oldest entry dropped |
| Background.LoggedStaysCapped | background.js:310-313 | a log of at most 100 entries stays at most 100 |
| Background.NewestOfNewest | background.js:310-313 | keeping the newest `n` twice is keeping them once |
| Background.LogAllKeepsNewest | background.js:307-314 | after any number of results, the log holds the newest 100, newest first |
| Background.RequestHeaders | background.js:179-188 | exactly `Content-Type: application/json`, `Authorization: Bearer <token>` and `Accept: application/json`, in that order, then `X-XSRF-TOKEN: <cookie>` exactly when the cookie is non-empty, and nothing else |
| Background.DecodeMessage | background.js:210-218 | the parsed `msg` when the body is JSON with a truthy `msg`; the raw body otherwise |
| Background.AnyKeywordSpec | background.js:238-240 | the keyword test succeeds iff some keyword occurs in the message, ignoring case |
| Background.AlreadyDoneSpec | background.js:236-241 | "already done" iff one of 이미, 완료, 하셨습니다, already, done, exist, duplicate occurs, ignoring case |
| Background.Classify | background.js:221-251 | 2xx succeeds; a 400 with a keyword is already done; everything else fails |
| Background.Save | background.js:288-322 | one record is logged and the credential is untouched |
| Background.Finish | background.js:221-275 | each outcome logs its record and then at most notifies: the earlier effects stay, only notifications follow, and the token and expiry are untouched |
| Background.Conclude | background.js:210-275 | after the request: one record is logged; success (of either kind) iff the record is a success; a failure's error is the record's message; only notifications follow; the credential is kept unless the status is 401/403, and removed when it is |
| Background.Respond | background.js:179-275 | the request is sent first, with the headers above, and then the reply is concluded |
| Background.Attend | background.js:151-276 | every run logs exactly one record; the result is a success iff the record is; a failure's error is the record's message |
| Background.RespondEventsBounded | background.js:179-265 | a call with a token sends one request and opens no tab |
| Background.RefreshPrefixBounded | background.js:110-124 | opening and closing the refresh tab before a call without tabs adds one tab and no request |
| Background.NoTokenEventsBounded | background.js:171-175 | the failure without a token only notifies |
| Background.RefreshEventsBounded | background.js:163-168 | a refresh followed by a call without tabs adds at most one tab and one request |
| Background.AttendIsBounded | background.js:160-176 | a run only appends effects, sends at most one request and opens at most one tab, and none when refreshing is not allowed: the recursion depth is at most one |
| Background.AttendWithoutRetryBounded | background.js:155-176 | a run with refreshing not allowed sends at most one request and opens no tab |
| Background.AttendAfterRefreshBounded | background.js:160-176 | a run without a token and with refreshing allowed sends at most one request and opens at most one tab |
| Background.NoTokenWithoutRetrySendsNothing | background.js:160-176 | without a token and with refreshing not allowed: failure "Bearer 토큰 없음 - 사이트 로그인 필요", one notification, no request |
| Background.AuthRejectionClearsCredential | background.js:254-260 | after a 401 or 403 to the first request there is no credential, whenever the next lookup happens, refresh allowed or not |
| Background.AuthRejectionOnRetryClearsCredential | background.js:163-260 | after a 401 or 403 to the request retried after a refresh there is no credential either |
| Background.AttendSucceeds | background.js:221-228 | a 2xx reply succeeds with the response text, logs the decoded message and notifies once |
| Background.AttendAlreadyChecked | background.js:236-251 | a 400 with a keyword succeeds with `alreadyChecked`, logs "오늘 이미 출석체크 완료" and does not notify |
| Background.AttendRejected | background.js:229-265 | any other status fails with exactly `HTTP <status>: <decoded>` and notifies `오류: <status>` |
| Background.AttendThrown | background.js:267-275 | a transport failure fails with the exception's message, or "네트워크 오류" when it has none |
| Background.AttendKeepsCredential | background.js:257-260 | any reply other than 401 or 403 leaves the token and its expiry as they were |
| Background.AttendRetriesWithHarvestedToken | background.js:163-168 | when the refresh harvests a usable token, the tab opens, closes, and then the retried call sends the request with that token |
| Background.RetryRespondsWithHarvest | background.js:163-168 | after a refresh that stored a usable token, the run is the call made with that token, right after the tab opens and closes |
| Background.SettingsRoundTrip | background.js:472-498 | saved non-zero settings are what the next configuration read returns |
| Background.Worker.constructor | background.js:1-31 | an empty store, an empty log, no effects and no alarm |
| Background.Worker.SaveAttendanceResult | background.js:288-322 | the store gains the record's keys and the log is `unshift` then `pop` past 100; the log stays capped and well formed |
| Background.Worker.ShowNotification | background.js:331-339 | one notification with the `[GGMAuto] ` title prefix |
| Background.Worker.HandleTokenUpdate | background.js:402-424 | the store becomes the token-update write of the old store |
| Background.Worker.RefreshTokenAutomatically | background.js:100-142 | a tab opens, the page's post (if any) is stored, the tab closes; it reports success iff a usable token is now stored |
| Background.Worker.SendAttendance | background.js:151-276 | the recursive routine computes exactly `Attend` and keeps the log capped |
| Background.Worker.Post | background.js:179-275 | sending with a token computes exactly `Respond` |
| Background.Worker.HandleReply | background.js:210-275 | handling the reply computes exactly `Conclude` |
| Background.Worker.OnAlarm | background.js:391-396 | only the worker's own alarm starts the routine, with refreshing allowed |
| Background.Worker.ManualAttendance | background.js:427-433 | a manual request runs the routine with refreshing allowed |
| Background.Worker.OnInstalled | background.js:348-367 | the alarm is replaced with the configured one; a notification only on a fresh install |
| Background.Worker.OnStartup | background.js:372-386 | the alarm is re-created with the configuration only when it is missing |
| Background.Worker.SaveSettings | background.js:472-498 | both settings are stored and the alarm is re-created with them |
| Background.Worker.ClearLogs | background.js:509-515 | the log is emptied |
| Background.Worker.ResetAll | background.js:518-539 | store and log are emptied, so there is no token and the configuration is back to 1 and 60; the alarm is re-created with the defaults |
| Settings.OrDefault | settings.js:25-26 | `parseInt(x) \|\| d`: the parsed number unless it is `NaN` or zero |
| Settings.SaveAlarmSettings | settings.js:24-46 | a save is sent iff the interval is in 1..1440 and the delay in 1..60; the interval is checked first, with its own warning |
| Settings.BlankFieldsSaveDefaults | settings.js:25-26 | empty or zero fields save 60 and 1 |
| Settings.SubmittedSettingsTakeEffect | settings.js:39-45 | settings the page submits are what the worker's next configuration read returns |
| Settings.Truncate | settings.js:102-106 | "" for "", the text when it fits, otherwise exactly the first `maxLength` characters followed by "..." |
| Settings.RenderEntry | settings.js:70-79 | `log-success`/✅ iff the record is a success; the message is ` - ` plus its truncation to 30, or nothing when empty |
| Settings.RenderLogs | settings.js:65-80 | an empty log renders the single "로그가 없습니다" entry; otherwise one line per record, in log order |
| Settings.NewestAttemptShownFirst | settings.js:70-79 | after a record is saved, the panel shows that record's line (with its attempt time) first, then the older records' lines in order |
| Flow.PostedTokenIsUsed | content_script.js:187-197 | a credential the page posts is what the worker's next lookup returns, unless its expiry has passed |
| Flow.RawTokenIsFound | content_script.js:87-92 | a plain value under `token` is found as itself, with no expiry |
| Flow.RawStoredTokenNeverExpires | content_script.js:89-92 | a plain stored token is posted with no expiry, so the worker accepts it at any time |
| Flow.RawTokenDiscovered | content_script.js:213-230 | a plain value under `token` is the token of the whole discovery, with no expiry |
| Flow.PlainTokenIsUsed | background.js:51-71 | a posted non-empty string token without expiry is accepted at any time |
| Flow.RefreshWithPageRetries | background.js:163-168 | when the page opened by the refresh posts an unexpired credential, the retried call sends the request with it |

## Left out

- **Browser APIs.** The `chrome.*` APIs, `fetch` and the network are
  replaced by the store fields, the effect log and the `Attempt` and
  `Refresh` inputs. Messaging between the page and the worker is represented
  by the posted payloads.
- **Timers.** The 5-second wait in `refreshTokenAutomatically`, the
  30-second poll in `startTokenWatcher` and the alarm timer are not
  modelled. The alarm is the record `Worker.alarm`; a firing is a call of
  `OnAlarm`.
- **Several posts during a refresh.** While the refresh tab is open, the
  page may post `TOKEN_UPDATE` more than once: on its first scan, again
  after a write to a watched key, and from other open tabs of the site.
  `Refresh.harvest` carries at most one post. Each post overwrites the
  token keys, and the routine reads only `bearerToken` and `tokenExpiry`,
  so a single harvest stands for the last post to arrive before the tab
  closes. The profile keys written by earlier posts are not represented.
- **Concurrency.** Races between an alarm and a manual request, and
  interleaved storage writes, are not modelled. Each handler runs to
  completion.
- **`JSON.parse`.** It is the `Parser` parameter. A reply body's parse is
  the optional `json` field of `Response`.
- **`decodeURIComponent`.** The cookie read and its decoding are not
  modelled. The XSRF value arrives already decoded in `Attempt.xsrf`.
- **Dates.** `Date.now()`, `toISOString` and `toLocaleString` come in as
  the `Clock` value. The locale formatting of log times (`formatLogTime`)
  is not modelled, so a rendered line carries the raw attempt timestamp.
- **Browser API failures.** The `try`/`catch` wrappers around failing
  browser APIs are not modelled. Only the catch of a failed request is
  modelled, as `Thrown`.
- **Unmodelled handlers and page UI.** `GET_SETTINGS` is `GetAlarmConfig`,
  and `GET_LOGS` returns `Worker.history`; neither has a separate member.
  popup.js and the DOM, toast and confirm-dialog parts of settings.js are
  not part of this model.
- **Numbers.** JavaScript numbers are modelled as integers. Fractional
  settings and expiries are not modelled.
- **Strings.** A string is a sequence of Unicode scalar values, while
  JavaScript measures UTF-16 code units. The two differ only for characters
  outside the Basic Multilingual Plane.
- **`parseInt`.** Reading the input fields and parsing them with `parseInt`
  are not modelled. The parsed number, or `None` for `NaN`, is the
  `Option<int>` input of `OrDefault`.
- **Duplicate JSON keys.** An object is its list of members in
  `Object.keys` order, and lookup takes the first member with a name.
  `JSON.parse` keeps the last of duplicate names and never produces such a
  list, so the model assumes member names are unique.
- **Page globals.** `window.__INITIAL_STATE__` and `window.__NUXT__` are
  modelled as JSON values. Functions, class instances, cycles and getters
  in those globals are not represented.
- **Lone surrogates.** A JavaScript string may hold an unpaired surrogate
  code unit. A Dafny string cannot, so such tokens and messages are not
  represented.
- **Large numbers.** `String(n)` writes integers of magnitude 10^21 and
  above in exponent notation. `IntToString` always writes every digit.
- Background.Attend: one `Clock` reading serves both the token's expiry
  check and the timestamps of the record that call saves. The source reads
  the clock separately for each.
- ExpiryPassed: `Date.now() > expiry` is exact for numbers, booleans and
  `null`. A string counts as a number only when it is a plain run of decimal
  digits. Other strings (decimal points, exponents, surrounding spaces),
  arrays and objects are treated as `NaN`, which never compares greater.
- DecodeMessage: a truthy non-string `msg` is converted with `String()`.
  The source passes the raw value on, so the stored message of such a
  success would be that value rather than its text.
- Truncate: `str` is a string, so the `!str` guard for `null` and
  `undefined` inputs is represented only by the empty-string case.
- Background.Worker.RefreshTokenAutomatically: the token harvested while the
  tab is open is checked against the clock reading at which the tab closes.
  The source reads the clock separately for the store write and for the
  check.
