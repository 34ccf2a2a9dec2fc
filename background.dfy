/**
 * The service worker: it keeps the credential and the attendance log in
 * the extension's key-value store, sends the daily attendance request,
 * classifies the reply, records the result, and re-opens the site once to
 * harvest a fresh token when it has none.
 */
module Background {
  import opened Wrappers
  import opened Text
  import opened Json
  import opened Messages

  /** `chrome.storage.local`, except `attendanceHistory`, which `Worker.history` holds. */
  type Store = map<string, Json>

  const ALARM_NAME: string := "attendanceAlarm"
  const DEFAULT_DELAY_MINUTES: int := 1
  const DEFAULT_PERIOD_MINUTES: int := 60
  const ATTENDANCE_URL: string := "https://ggm.gondr.net/api/town/goldbox/attendance"
  const REFRESH_URL: string := "https://ggm.gondr.net"
  const HISTORY_CAP: nat := 100

  const NO_TOKEN_ERROR: string := "Bearer 토큰 없음 - 사이트 로그인 필요"
  const ALREADY_CHECKED_MESSAGE: string := "오늘 이미 출석체크 완료"
  const NETWORK_ERROR: string := "네트워크 오류"
  /** The alternatives of `/이미|완료|하셨습니다|already|done|exist|duplicate/i`. */
  const ALREADY_DONE_KEYWORDS: seq<string> := ["이미", "완료", "하셨습니다", "already", "done", "exist", "duplicate"]

  const NOTIFICATION_PREFIX: string := "[GGMAuto] "
  const SUCCESS_TITLE: string := "출석체크 성공"
  const SUCCESS_BODY: string := "출석체크가 완료되었습니다!"
  const FAILURE_TITLE: string := "출석체크 실패"
  const INSTALLED_TITLE: string := "설치 완료"
  const INSTALLED_BODY: string := "대상 사이트 방문하여 로그인해주세요."

  /** One reading of the clock: `Date.now()`, `toISOString()` and `toLocaleString("ko-KR")`. */
  datatype Clock = Clock(millis: int, iso: string, readable: string)

  /** `toISOString().split("T")[0]`: the date part of the timestamp. */
  function Today(clock: Clock): string
  {
    Before(clock.iso, 'T')
  }

  function Lookup(store: Store, key: string): Option<Json>
  {
    if key in store then Some(store[key]) else None
  }

  predicate TruthyAt(store: Store, key: string)
  {
    key in store && Truthy(store[key])
  }

  // ---------------------------------------------------------------------------
  // getAlarmConfig

  datatype AlarmConfig = AlarmConfig(name: string, delayInMinutes: Json, periodInMinutes: Json)

  /** The stored delay and period where they are truthy, 1 and 60 minutes otherwise. */
  function GetAlarmConfig(store: Store): (c: AlarmConfig)
    ensures c.name == ALARM_NAME
    ensures c.delayInMinutes == if TruthyAt(store, "alarmDelayMinutes") then store["alarmDelayMinutes"]
                                else JNum(DEFAULT_DELAY_MINUTES)
    ensures c.periodInMinutes == if TruthyAt(store, "alarmPeriodMinutes") then store["alarmPeriodMinutes"]
                                 else JNum(DEFAULT_PERIOD_MINUTES)
    ensures Truthy(c.delayInMinutes) && Truthy(c.periodInMinutes)
  {
    AlarmConfig(ALARM_NAME,
                Or(Lookup(store, "alarmDelayMinutes"), JNum(DEFAULT_DELAY_MINUTES)),
                Or(Lookup(store, "alarmPeriodMinutes"), JNum(DEFAULT_PERIOD_MINUTES)))
  }

  // ---------------------------------------------------------------------------
  // getBearerToken

  /**
   * `Date.now() > expiry` under JavaScript's comparison: numbers and
   * booleans compare numerically, a string of decimal digits by its value;
   * other strings, objects and arrays convert to NaN and never compare greater.
   */
  predicate ExpiryPassed(now: int, expiry: Json)
  {
    match expiry
    case JNum(n) => now > n
    case JBool(b) => now > (if b then 1 else 0)
    case JStr(s) => s != "" && AllDigits(s) && now > DigitsToNat(s)
    case JNull => now > 0
    case _ => false
  }

  /**
   * The stored token, unless it is absent or falsy, or a truthy expiry is
   * set and `now` is strictly past it.
   */
  function BearerToken(store: Store, now: int): (t: Option<Json>)
    ensures !TruthyAt(store, "bearerToken") ==> t.None?
    ensures TruthyAt(store, "tokenExpiry") && ExpiryPassed(now, store["tokenExpiry"]) ==> t.None?
    ensures TruthyAt(store, "bearerToken") && !(TruthyAt(store, "tokenExpiry") && ExpiryPassed(now, store["tokenExpiry"]))
            ==> t == Some(store["bearerToken"])
  {
    if !TruthyAt(store, "bearerToken") then None
    else if TruthyAt(store, "tokenExpiry") && ExpiryPassed(now, store["tokenExpiry"]) then None
    else Some(store["bearerToken"])
  }

  /** A token that has expired stays expired as time goes on. */
  lemma ExpiredStaysExpired(store: Store, now: int, later: int)
    requires now <= later
    requires TruthyAt(store, "bearerToken") && BearerToken(store, now).None?
    ensures BearerToken(store, later).None?
  {
  }

  // ---------------------------------------------------------------------------
  // TOKEN_UPDATE and GET_STATUS

  /** `userInfo.name || userInfo.username || userInfo.id || null`. */
  function UserName(userInfo: Json): Json
  {
    FirstTruthy(userInfo, ["name", "username", "id"])
  }

  /** The store after the `TOKEN_UPDATE` handler's write. */
  function ApplyTokenUpdate(store: Store, data: TokenData, clock: Clock): (s: Store)
    ensures s.Keys == store.Keys + {"bearerToken", "tokenExpiry", "tokenUpdatedAt"} +
                      (if TruthyOpt(data.userInfo) then PROFILE_KEYS else {})
    ensures s["bearerToken"] == data.token
    ensures s["tokenExpiry"] == if Truthy(data.expiry) then data.expiry else JNull
    ensures s["tokenUpdatedAt"] == JStr(clock.iso)
    ensures TruthyOpt(data.userInfo) ==> "userInfo" in s && "userName" in s && s["userInfo"] == data.userInfo.value &&
                                         s["userName"] == UserName(data.userInfo.value)
    ensures forall k :: k in store && k !in TOKEN_UPDATE_KEYS ==> k in s && s[k] == store[k]
    ensures !TruthyOpt(data.userInfo) ==> forall k :: k in store && k in PROFILE_KEYS ==> k in s && s[k] == store[k]
  {
    store + StorageData(data, clock)
  }

  /** The `storageData` object the `TOKEN_UPDATE` handler writes. */
  function StorageData(data: TokenData, clock: Clock): map<string, Json>
  {
    var update := map["bearerToken" := data.token,
                      "tokenExpiry" := if Truthy(data.expiry) then data.expiry else JNull,
                      "tokenUpdatedAt" := JStr(clock.iso)];
    if TruthyOpt(data.userInfo) then
      update["userName" := UserName(data.userInfo.value)]["userInfo" := data.userInfo.value]
    else update
  }

  const PROFILE_KEYS: set<string> := {"userName", "userInfo"}
  const TOKEN_UPDATE_KEYS: set<string> := {"bearerToken", "tokenExpiry", "tokenUpdatedAt"} + PROFILE_KEYS

  /**
   * The worker uses a freshly delivered token exactly when the token is
   * truthy and its expiry (if truthy) has not passed.
   */
  lemma TokenUpdateRoundTrip(store: Store, data: TokenData, clock: Clock, now: int)
    ensures BearerToken(ApplyTokenUpdate(store, data, clock), now) ==
            if Truthy(data.token) && !(Truthy(data.expiry) && ExpiryPassed(now, data.expiry))
            then Some(data.token) else None
  {
  }

  /** The reply to `GET_STATUS`; `None` stands for `undefined`. */
  datatype Status = Status(hasToken: bool, userName: Json, lastAttempt: Option<Json>,
                           lastSuccess: Option<Json>, lastResult: Option<Json>, todayChecked: bool)

  function GetStatus(store: Store, clock: Clock): (st: Status)
    ensures st.hasToken <==> TruthyAt(store, "bearerToken")
    ensures st.todayChecked <==> Lookup(store, "todayChecked") == Some(JStr(Today(clock)))
    ensures TruthyAt(store, "userName") ==> st.userName == store["userName"]
    ensures !TruthyAt(store, "userName") ==> st.userName == JNull
    ensures st.lastAttempt == Lookup(store, "lastAttempt") && st.lastSuccess == Lookup(store, "lastSuccess")
    ensures st.lastResult == Lookup(store, "success")
  {
    Status(TruthyAt(store, "bearerToken"),
           Or(Lookup(store, "userName"), JNull),
           Lookup(store, "lastAttempt"),
           Lookup(store, "lastSuccess"),
           Lookup(store, "success"),
           Lookup(store, "todayChecked") == Some(JStr(Today(clock))))
  }

  /** `hasToken` looks only at presence: an expired token still reports as held. */
  lemma StatusIgnoresExpiry(store: Store, clock: Clock)
    requires TruthyAt(store, "bearerToken")
    requires TruthyAt(store, "tokenExpiry") && ExpiryPassed(clock.millis, store["tokenExpiry"])
    ensures GetStatus(store, clock).hasToken && BearerToken(store, clock.millis).None?
  {
  }

  // ---------------------------------------------------------------------------
  // saveAttendanceResult

  /** The fields a record carries only when the attempt succeeded. */
  datatype SuccessFields = SuccessFields(lastSuccess: string, lastSuccessReadable: string,
                                         todayChecked: string, alreadyCheckedToday: bool)

  /** One attempt's result record. */
  datatype AttendanceRecord = AttendanceRecord(lastAttempt: string, lastAttemptReadable: string,
                                               success: bool, message: string,
                                               onSuccess: Option<SuccessFields>)

  /** The success-only fields are present exactly on successful records. */
  predicate WellFormed(r: AttendanceRecord)
  {
    r.onSuccess.Some? <==> r.success
  }

  function MakeRecord(success: bool, message: string, alreadyChecked: bool, clock: Clock): (r: AttendanceRecord)
    ensures WellFormed(r)
    ensures r.success == success && r.message == message
    ensures r.lastAttempt == clock.iso && r.lastAttemptReadable == clock.readable
    ensures success ==> r.onSuccess.value.lastSuccess == clock.iso &&
                        r.onSuccess.value.lastSuccessReadable == clock.readable &&
                        r.onSuccess.value.todayChecked == Today(clock) &&
                        r.onSuccess.value.alreadyCheckedToday == alreadyChecked
  {
    AttendanceRecord(clock.iso, clock.readable, success, message,
                     if success then Some(SuccessFields(clock.iso, clock.readable, Today(clock), alreadyChecked))
                     else None)
  }

  const ATTEMPT_KEYS: set<string> := {"lastAttempt", "lastAttemptReadable", "success", "message"}
  const SUCCESS_KEYS: set<string> := {"lastSuccess", "lastSuccessReadable", "todayChecked", "alreadyCheckedToday"}

  /** `...record`: the store entries written for a record. */
  function RecordFields(r: AttendanceRecord): (m: Store)
    ensures m.Keys == ATTEMPT_KEYS + (if r.onSuccess.Some? then SUCCESS_KEYS else {})
    ensures m["lastAttempt"] == JStr(r.lastAttempt) && m["lastAttemptReadable"] == JStr(r.lastAttemptReadable)
    ensures m["success"] == JBool(r.success) && m["message"] == JStr(r.message)
    ensures r.onSuccess.Some? ==> m["lastSuccess"] == JStr(r.onSuccess.value.lastSuccess) &&
                                  m["lastSuccessReadable"] == JStr(r.onSuccess.value.lastSuccessReadable)
    ensures r.onSuccess.Some? ==> m["todayChecked"] == JStr(r.onSuccess.value.todayChecked) &&
                                  m["alreadyCheckedToday"] == JBool(r.onSuccess.value.alreadyCheckedToday)
  {
    var base := map["lastAttempt" := JStr(r.lastAttempt), "lastAttemptReadable" := JStr(r.lastAttemptReadable),
                    "success" := JBool(r.success), "message" := JStr(r.message)];
    match r.onSuccess
    case None => base
    case Some(f) =>
      base["lastSuccess" := JStr(f.lastSuccess)]["lastSuccessReadable" := JStr(f.lastSuccessReadable)]
          ["todayChecked" := JStr(f.todayChecked)]["alreadyCheckedToday" := JBool(f.alreadyCheckedToday)]
  }

  /**
   * The log after `unshift(record)` and, past the cap, one `pop()`: the
   * new record first, then the old log with at most its oldest entry dropped.
   */
  function Logged(history: seq<AttendanceRecord>, record: AttendanceRecord): (h: seq<AttendanceRecord>)
    ensures |h| == if |history| >= HISTORY_CAP then |history| else |history| + 1
    ensures h[0] == record && h[1..] == history[..|h| - 1]
  {
    var grown := [record] + history;
    if |grown| > HISTORY_CAP then grown[..|grown| - 1] else grown
  }

  /** A log within the cap stays within it. */
  lemma LoggedStaysCapped(history: seq<AttendanceRecord>, record: AttendanceRecord)
    requires |history| <= HISTORY_CAP
    ensures |Logged(history, record)| <= HISTORY_CAP
  {
  }

  /** The log after recording `records` one after the other. */
  function LogAll(history: seq<AttendanceRecord>, records: seq<AttendanceRecord>): seq<AttendanceRecord>
    decreases |records|
  {
    if records == [] then history else LogAll(Logged(history, records[0]), records[1..])
  }

  function Reversed<T>(s: seq<T>): (r: seq<T>)
    ensures |r| == |s|
    ensures forall i :: 0 <= i < |s| ==> r[i] == s[|s| - 1 - i]
  {
    if s == [] then [] else Reversed(s[1..]) + [s[0]]
  }

  function Newest<T>(s: seq<T>, n: nat): (r: seq<T>)
    ensures |r| == if |s| < n then |s| else n
  {
    if |s| <= n then s else s[..n]
  }

  lemma {:induction false} NewestOfNewest<T>(a: seq<T>, b: seq<T>, n: nat)
    ensures Newest(a + Newest(b, n), n) == Newest(a + b, n)
  {
    if |b| > n {
      if |a| >= n {
        assert (a + b[..n])[..n] == a[..n] == (a + b)[..n];
      } else {
        assert (a + b[..n])[..n] == (a + b)[..n];
      }
    }
  }

  /**
   * However many records are written, the log holds the newest ones, newest
   * first, and never more than the cap: the oldest are evicted first.
   */
  lemma {:induction false} LogAllKeepsNewest(history: seq<AttendanceRecord>, records: seq<AttendanceRecord>)
    requires |history| <= HISTORY_CAP
    ensures LogAll(history, records) == Newest(Reversed(records) + history, HISTORY_CAP)
    ensures |LogAll(history, records)| <= HISTORY_CAP
    decreases |records|
  {
    if records == [] {
    } else {
      var r, rest := records[0], records[1..];
      var h' := Logged(history, r);
      assert h' == Newest([r] + history, HISTORY_CAP);
      LogAllKeepsNewest(h', rest);
      assert Reversed(records) == Reversed(rest) + [r];
      NewestOfNewest(Reversed(rest), [r] + history, HISTORY_CAP);
      assert Reversed(rest) + ([r] + history) == Reversed(records) + history;
    }
  }

  // ---------------------------------------------------------------------------
  // The attendance request and the interpretation of its reply

  /** What the transport delivered: a response, or the message of the exception `fetch` threw. */
  datatype Reply = Response(status: nat, text: string, json: Option<Json>) | Thrown(message: string)

  /** The world as one call of the routine meets it: the clock, the XSRF cookie and the reply. */
  datatype Attempt = Attempt(clock: Clock, xsrf: Option<string>, reply: Reply)

  /** A token refresh: what the opened page posted while it was open (if anything), and when it closed. */
  datatype Refresh = Refresh(harvest: Option<TokenData>, clock: Clock)

  datatype Event =
    | Notified(title: string, message: string)
    | RequestSent(url: string, headers: seq<(string, string)>, body: string)
    | TabOpened(url: string)
    | TabClosed

  /** What the routine returns to its caller. */
  datatype Outcome = Succeeded(data: string) | AlreadyChecked(data: string) | Failed(error: string)

  /** The request headers: bearer authorization (section 2.1 of RFC 6750), and the XSRF token when the cookie is non-empty. */
  function RequestHeaders(token: Json, xsrf: Option<string>): (hs: seq<(string, string)>)
    ensures |hs| == if xsrf.Some? && xsrf.value != "" then 4 else 3
    ensures hs[..3] == [("Content-Type", "application/json"), ("Authorization", "Bearer " + ToText(token)),
                        ("Accept", "application/json")]
    ensures |hs| == 4 ==> hs[3] == ("X-XSRF-TOKEN", xsrf.value)
  {
    var base := [("Content-Type", "application/json"), ("Authorization", "Bearer " + ToText(token)),
                 ("Accept", "application/json")];
    if xsrf.Some? && xsrf.value != "" then base + [("X-XSRF-TOKEN", xsrf.value)] else base
  }

  /** The message of a reply body: its truthy JSON `msg` member as text, else the raw body. */
  function DecodeMessage(text: string, json: Option<Json>): (m: string)
    ensures json.None? ==> m == text
    ensures json.Some? && !TruthyMember(json.value, "msg") ==> m == text
    ensures json.Some? && TruthyMember(json.value, "msg") ==> m == ToText(Get(json.value, "msg").value)
  {
    if json.Some? && TruthyOpt(Get(json.value, "msg")) then ToText(Get(json.value, "msg").value) else text
  }

  function AnyKeyword(message: string, keywords: seq<string>): bool
  {
    if keywords == [] then false
    else ContainsFolded(message, keywords[0]) || AnyKeyword(message, keywords[1..])
  }

  /** The case-insensitive "already done" test. */
  function AlreadyDone(message: string): bool
  {
    AnyKeyword(message, ALREADY_DONE_KEYWORDS)
  }

  lemma {:induction false} AnyKeywordSpec(message: string, keywords: seq<string>)
    ensures AnyKeyword(message, keywords) <==>
            exists k, j :: k in keywords && MatchAt(message, k, j)
  {
    if keywords != [] {
      ContainsFoldedSpec(message, keywords[0]);
      AnyKeywordSpec(message, keywords[1..]);
      assert forall k :: k in keywords <==> k == keywords[0] || k in keywords[1..];
    }
  }

  /** The test succeeds exactly when some keyword occurs in the message, ignoring ASCII case. */
  lemma AlreadyDoneSpec(message: string)
    ensures AlreadyDone(message) <==>
            exists k, j :: k in ALREADY_DONE_KEYWORDS && MatchAt(message, k, j)
  {
    AnyKeywordSpec(message, ALREADY_DONE_KEYWORDS);
  }

  datatype Class = Ok | Done | Rejected

  /** Classification of a response: 2xx succeeds; a 400 with a keyword is "already done"; all else fails. */
  function Classify(status: nat, message: string): (c: Class)
    ensures c == Ok <==> 200 <= status <= 299
    ensures c == Done <==> status == 400 && AlreadyDone(message)
    ensures c == Rejected <==> !(200 <= status <= 299) && !(status == 400 && AlreadyDone(message))
  {
    if 200 <= status <= 299 then Ok
    else if status == 400 && AlreadyDone(message) then Done
    else Rejected
  }

  /** The worker's whole state as the routine sees it. */
  datatype Snapshot = Snapshot(store: Store, history: seq<AttendanceRecord>, events: seq<Event>)

  /** `saveAttendanceResult`. */
  function Save(s: Snapshot, success: bool, message: string, alreadyChecked: bool, clock: Clock): (t: Snapshot)
    ensures t.history == Logged(s.history, MakeRecord(success, message, alreadyChecked, clock)) && t.events == s.events
    ensures Lookup(t.store, "bearerToken") == Lookup(s.store, "bearerToken")
    ensures Lookup(t.store, "tokenExpiry") == Lookup(s.store, "tokenExpiry")
  {
    var record := MakeRecord(success, message, alreadyChecked, clock);
    assert "bearerToken" !in RecordFields(record) && "tokenExpiry" !in RecordFields(record);
    s.(store := s.store + RecordFields(record), history := Logged(s.history, record))
  }

  /** `showNotification`. */
  function Notify(s: Snapshot, title: string, message: string): Snapshot
  {
    s.(events := s.events + [Notified(NOTIFICATION_PREFIX + title, message)])
  }

  predicate AuthRejected(status: nat)
  {
    status == 401 || status == 403
  }

  /** Every event from index `from` on is a notification. */
  predicate OnlyNotices(es: seq<Event>, from: nat)
  {
    forall i :: from <= i < |es| ==> es[i].Notified?
  }

  /** The error text of a failed response: `HTTP <status>: <message>`. */
  function HttpError(status: nat, message: string): string
  {
    "HTTP " + NatToString(status) + ": " + message
  }

  /** The attendance request as sent with `token`. */
  function Request(token: Json, a: Attempt): Event
  {
    RequestSent(ATTENDANCE_URL, RequestHeaders(token, a.xsrf), "{}")
  }

  /**
   * Everything done with the reply once the request is out: one record is
   * logged, and only notifications follow; the credential is dropped on a
   * 401 or 403 and kept otherwise.
   */
  function Conclude(s: Snapshot, reply: Reply, clock: Clock): (r: (Snapshot, Outcome))
    ensures |r.0.history| >= 1 && r.0.history == Logged(s.history, r.0.history[0]) && WellFormed(r.0.history[0])
    ensures r.0.history[0].success <==> !r.1.Failed?
    ensures r.1.Failed? ==> r.0.history[0].message == r.1.error
    ensures |r.0.events| >= |s.events| && r.0.events[..|s.events|] == s.events
    ensures OnlyNotices(r.0.events, |s.events|)
    ensures !(reply.Response? && AuthRejected(reply.status)) ==>
              Lookup(r.0.store, "bearerToken") == Lookup(s.store, "bearerToken") &&
              Lookup(r.0.store, "tokenExpiry") == Lookup(s.store, "tokenExpiry")
    ensures reply.Response? && AuthRejected(reply.status) ==>
              "bearerToken" !in r.0.store && "tokenExpiry" !in r.0.store
  {
    match reply
    case Thrown(message) =>
      var e := if message == "" then NETWORK_ERROR else message;
      (Finish(s, false, e, false, clock, Some((FAILURE_TITLE, e))), Failed(e))
    case Response(status, text, json) =>
      var decoded := DecodeMessage(text, json);
      match Classify(status, decoded)
      case Ok =>
        (Finish(s, true, decoded, false, clock, Some((SUCCESS_TITLE, SUCCESS_BODY))), Succeeded(text))
      case Done =>
        (Finish(s, true, ALREADY_CHECKED_MESSAGE, true, clock, None), AlreadyChecked(text))
      case Rejected =>
        var e := HttpError(status, decoded);
        var revoked := if AuthRejected(status) then s.(store := s.store - {"bearerToken", "tokenExpiry"}) else s;
        (Finish(revoked, false, e, false, clock, Some((FAILURE_TITLE, "오류: " + NatToString(status)))), Failed(e))
  }

  /** Saving the result, then showing the notification if there is one. */
  function Finish(s: Snapshot, success: bool, message: string, alreadyChecked: bool, clock: Clock,
                  notice: Option<(string, string)>): (t: Snapshot)
    ensures t.history == Logged(s.history, MakeRecord(success, message, alreadyChecked, clock))
    ensures |t.events| >= |s.events| && t.events[..|s.events|] == s.events && OnlyNotices(t.events, |s.events|)
    ensures Lookup(t.store, "bearerToken") == Lookup(s.store, "bearerToken")
    ensures Lookup(t.store, "tokenExpiry") == Lookup(s.store, "tokenExpiry")
  {
    var saved := Save(s, success, message, alreadyChecked, clock);
    if notice.Some? then Notify(saved, notice.value.0, notice.value.1) else saved
  }

  /** Sending the request with a valid token, and everything done with its reply. */
  function Respond(s: Snapshot, token: Json, a: Attempt): (r: (Snapshot, Outcome))
    ensures |r.0.history| >= 1 && r.0.history == Logged(s.history, r.0.history[0]) && WellFormed(r.0.history[0])
    ensures r.0.history[0].success <==> !r.1.Failed?
    ensures r.1.Failed? ==> r.0.history[0].message == r.1.error
    ensures |r.0.events| > |s.events| && r.0.events[..|s.events| + 1] == s.events + [Request(token, a)]
    ensures OnlyNotices(r.0.events, |s.events| + 1)
  {
    Conclude(s.(events := s.events + [Request(token, a)]), a.reply, a.clock)
  }

  /** The end of the routine when there is no token. */
  function NoToken(s: Snapshot, clock: Clock): Snapshot
  {
    Notify(Save(s, false, NO_TOKEN_ERROR, false, clock), FAILURE_TITLE, NO_TOKEN_ERROR)
  }

  /** `refreshTokenAutomatically`: open the site in the background, let it post, close it. */
  function Refreshed(s: Snapshot, r: Refresh): Snapshot
  {
    var withTab := s.(events := s.events + [TabOpened(REFRESH_URL)]);
    var harvested := if r.harvest.Some? then withTab.(store := ApplyTokenUpdate(withTab.store, r.harvest.value, r.clock))
                     else withTab;
    harvested.(events := harvested.events + [TabClosed])
  }

  /**
   * `sendAttendance(retryAfterRefresh)`: `a` is what this call meets, `r`
   * the refresh it may run, `retry` what the one retried call meets.
   */
  function Attend(s: Snapshot, retryAfterRefresh: bool, a: Attempt, r: Refresh, retry: Attempt): (o: (Snapshot, Outcome))
    ensures |o.0.history| >= 1 && o.0.history == Logged(s.history, o.0.history[0]) && WellFormed(o.0.history[0])
    ensures o.0.history[0].success <==> !o.1.Failed?
    ensures o.1.Failed? ==> o.0.history[0].message == o.1.error
    decreases if retryAfterRefresh then 1 else 0
  {
    match BearerToken(s.store, a.clock.millis)
    case Some(token) => Respond(s, token, a)
    case None =>
      if retryAfterRefresh then
        var s' := Refreshed(s, r);
        if BearerToken(s'.store, r.clock.millis).Some? then Attend(s', false, retry, r, retry)
        else (NoToken(s', r.clock), Failed(NO_TOKEN_ERROR))
      else (NoToken(s, a.clock), Failed(NO_TOKEN_ERROR))
  }

  predicate AtMostOneRequest(es: seq<Event>)
  {
    forall i, j :: 0 <= i < j < |es| ==> !(es[i].RequestSent? && es[j].RequestSent?)
  }

  predicate NoTabOpened(es: seq<Event>)
  {
    forall i :: 0 <= i < |es| ==> !es[i].TabOpened?
  }

  predicate AtMostOneTab(es: seq<Event>)
  {
    forall i, j :: 0 <= i < j < |es| ==> !(es[i].TabOpened? && es[j].TabOpened?)
  }

  /** The events of a call that had a token: one request, then notifications. */
  lemma RespondEventsBounded(s: Snapshot, token: Json, a: Attempt)
    ensures var es := Respond(s, token, a).0.events;
            |s.events| < |es| && es[..|s.events|] == s.events &&
            AtMostOneRequest(es[|s.events|..]) && NoTabOpened(es[|s.events|..])
  {
    RequestThenNotices(Respond(s, token, a).0.events, s.events, Request(token, a));
  }

  /** Events that extend `pre` by one request and then only notifications. */
  lemma RequestThenNotices(es: seq<Event>, pre: seq<Event>, request: Event)
    requires request.RequestSent?
    requires |es| > |pre| && es[..|pre| + 1] == pre + [request] && OnlyNotices(es, |pre| + 1)
    ensures es[..|pre|] == pre && AtMostOneRequest(es[|pre|..]) && NoTabOpened(es[|pre|..])
  {
    var n := |pre|;
    assert es[..n] == es[..n + 1][..n];
    var d := es[n..];
    assert d[0] == request;
    assert OnlyNotices(d, 1) by {
      forall i | 1 <= i < |d|
        ensures d[i].Notified?
      {
        assert d[i] == es[n + i];
      }
    }
    RequestThenNoticesBounded(d);
  }

  /** One request followed only by notifications sends one request and opens no tab. */
  lemma RequestThenNoticesBounded(d: seq<Event>)
    requires |d| >= 1 && d[0].RequestSent? && OnlyNotices(d, 1)
    ensures AtMostOneRequest(d) && NoTabOpened(d)
  {
  }

  /** Opening and closing the tab before a call without tabs adds exactly one tab and no request. */
  lemma RefreshPrefixBounded(d: seq<Event>)
    requires AtMostOneRequest(d) && NoTabOpened(d)
    ensures AtMostOneRequest([TabOpened(REFRESH_URL), TabClosed] + d)
    ensures AtMostOneTab([TabOpened(REFRESH_URL), TabClosed] + d)
  {
    var e := [TabOpened(REFRESH_URL), TabClosed] + d;
    assert forall i :: 2 <= i < |e| ==> e[i] == d[i - 2];
  }

  /** The failure path when no token is found adds one notification and nothing else. */
  lemma NoTokenEventsBounded(s: Snapshot, clock: Clock)
    ensures var es := NoToken(s, clock).events;
            |s.events| < |es| && es[..|s.events|] == s.events &&
            AtMostOneRequest(es[|s.events|..]) && NoTabOpened(es[|s.events|..])
  {
    var es := NoToken(s, clock).events;
    assert es == s.events + [Notified(NOTIFICATION_PREFIX + FAILURE_TITLE, NO_TOKEN_ERROR)];
    assert es[|s.events|..] == [Notified(NOTIFICATION_PREFIX + FAILURE_TITLE, NO_TOKEN_ERROR)];
  }

  /** The events of a call without a usable token that is allowed to refresh. */
  lemma RefreshEventsBounded(s: Snapshot, r: Refresh, es: seq<Event>)
    requires |s.events| + 2 <= |es|
    requires es[..|s.events| + 2] == s.events + [TabOpened(REFRESH_URL), TabClosed]
    requires AtMostOneRequest(es[|s.events| + 2..]) && NoTabOpened(es[|s.events| + 2..])
    ensures es[..|s.events|] == s.events
    ensures AtMostOneRequest(es[|s.events|..]) && AtMostOneTab(es[|s.events|..])
  {
    var n := |s.events|;
    assert es[..n] == es[..n + 2][..n];
    var d1 := es[n + 2..];
    assert es[n..] == es[n..n + 2] + d1;
    assert es[n..n + 2] == [TabOpened(REFRESH_URL), TabClosed];
    RefreshPrefixBounded(d1);
  }

  /**
   * One run of the routine only appends events, sends at most one request,
   * opens at most one tab, and opens none when refreshing is not allowed.
   */
  lemma AttendIsBounded(s: Snapshot, retryAfterRefresh: bool, a: Attempt, r: Refresh, retry: Attempt)
    ensures var s' := Attend(s, retryAfterRefresh, a, r, retry).0;
            |s.events| <= |s'.events| && s'.events[..|s.events|] == s.events &&
            AtMostOneRequest(s'.events[|s.events|..]) && AtMostOneTab(s'.events[|s.events|..]) &&
            (!retryAfterRefresh ==> NoTabOpened(s'.events[|s.events|..]))
  {
    if !retryAfterRefresh {
      AttendWithoutRetryBounded(s, a, r, retry);
    } else if BearerToken(s.store, a.clock.millis).Some? {
      var token := BearerToken(s.store, a.clock.millis).value;
      var s' := Attend(s, true, a, r, retry).0;
      assert s' == Respond(s, token, a).0;
      RespondEventsBounded(s, token, a);
      NoTabMeansOneTab(s'.events[|s.events|..]);
    } else {
      AttendAfterRefreshBounded(s, a, r, retry);
    }
  }

  /** Past a refresh, the routine opens one tab and sends at most one request. */
  lemma AttendAfterRefreshBounded(s: Snapshot, a: Attempt, r: Refresh, retry: Attempt)
    requires BearerToken(s.store, a.clock.millis).None?
    ensures var s' := Attend(s, true, a, r, retry).0;
            |s.events| <= |s'.events| && s'.events[..|s.events|] == s.events &&
            AtMostOneRequest(s'.events[|s.events|..]) && AtMostOneTab(s'.events[|s.events|..])
  {
    AfterRefreshBounded(s, a, r, retry);
    RefreshEventsBounded(s, r, Attend(s, true, a, r, retry).0.events);
  }

  /** What follows the two tab events of a refresh holds at most one request and no tab. */
  lemma AfterRefreshBounded(s: Snapshot, a: Attempt, r: Refresh, retry: Attempt)
    requires BearerToken(s.store, a.clock.millis).None?
    ensures var s' := Attend(s, true, a, r, retry).0;
            var s1 := Refreshed(s, r);
            s1.events == s.events + [TabOpened(REFRESH_URL), TabClosed] &&
            |s1.events| <= |s'.events| && s'.events[..|s1.events|] == s1.events &&
            AtMostOneRequest(s'.events[|s1.events|..]) && NoTabOpened(s'.events[|s1.events|..])
  {
    var s' := Attend(s, true, a, r, retry).0;
    var s1 := Refreshed(s, r);
    if BearerToken(s1.store, r.clock.millis).Some? {
      assert s' == Attend(s1, false, retry, r, retry).0;
      AttendWithoutRetryBounded(s1, retry, r, retry);
    } else {
      assert s' == NoToken(s1, r.clock);
      NoTokenEventsBounded(s1, r.clock);
    }
  }

  /** Without refreshing, the routine sends at most one request and opens no tab. */
  lemma AttendWithoutRetryBounded(s: Snapshot, a: Attempt, r: Refresh, retry: Attempt)
    ensures var s' := Attend(s, false, a, r, retry).0;
            |s.events| <= |s'.events| && s'.events[..|s.events|] == s.events &&
            AtMostOneRequest(s'.events[|s.events|..]) && NoTabOpened(s'.events[|s.events|..]) &&
            AtMostOneTab(s'.events[|s.events|..])
  {
    var s' := Attend(s, false, a, r, retry).0;
    match BearerToken(s.store, a.clock.millis)
    case Some(token) =>
      assert s' == Respond(s, token, a).0;
      RespondEventsBounded(s, token, a);
    case None =>
      assert s' == NoToken(s, a.clock);
      NoTokenEventsBounded(s, a.clock);
  }

  /** No tab at all is at most one tab. */
  lemma NoTabMeansOneTab(es: seq<Event>)
    requires NoTabOpened(es)
    ensures AtMostOneTab(es)
  {
  }


  /** Without a valid token and with refreshing not allowed, the routine fails without sending anything. */
  lemma NoTokenWithoutRetrySendsNothing(s: Snapshot, a: Attempt, r: Refresh, retry: Attempt)
    requires BearerToken(s.store, a.clock.millis).None?
    ensures var (s', res) := Attend(s, false, a, r, retry);
            res == Failed(NO_TOKEN_ERROR) &&
            s'.events == s.events + [Notified(NOTIFICATION_PREFIX + FAILURE_TITLE, NO_TOKEN_ERROR)] &&
            s'.history == Logged(s.history, MakeRecord(false, NO_TOKEN_ERROR, false, a.clock))
  {
  }

  /** A 401 or 403 leaves no credential: the next token lookup finds none, whenever it happens. */
  lemma AuthRejectionClearsCredential(s: Snapshot, retryAfterRefresh: bool, a: Attempt, r: Refresh, retry: Attempt, later: int)
    requires BearerToken(s.store, a.clock.millis).Some?
    requires a.reply.Response? && AuthRejected(a.reply.status)
    ensures BearerToken(Attend(s, retryAfterRefresh, a, r, retry).0.store, later).None?
  {
  }

  /** The same holds when the 401 or 403 answers the call retried after a refresh. */
  lemma AuthRejectionOnRetryClearsCredential(s: Snapshot, a: Attempt, r: Refresh, retry: Attempt, later: int)
    requires BearerToken(s.store, a.clock.millis).None?
    requires BearerToken(Refreshed(s, r).store, r.clock.millis).Some?
    requires BearerToken(Refreshed(s, r).store, retry.clock.millis).Some?
    requires retry.reply.Response? && AuthRejected(retry.reply.status)
    ensures BearerToken(Attend(s, true, a, r, retry).0.store, later).None?
  {
  }


  /** With a valid token, a 2xx reply succeeds with the decoded message and is announced. */
  lemma AttendSucceeds(s: Snapshot, retryAfterRefresh: bool, a: Attempt, r: Refresh, retry: Attempt, token: Json)
    requires BearerToken(s.store, a.clock.millis) == Some(token)
    requires a.reply.Response? && 200 <= a.reply.status <= 299
    ensures var (s', res) := Attend(s, retryAfterRefresh, a, r, retry);
            res == Succeeded(a.reply.text) &&
            s'.history == Logged(s.history, MakeRecord(true, DecodeMessage(a.reply.text, a.reply.json), false, a.clock)) &&
            s'.events == s.events + [Request(token, a),
                                     Notified(NOTIFICATION_PREFIX + SUCCESS_TITLE, SUCCESS_BODY)] &&
            s'.store == s.store + RecordFields(s'.history[0])
  {
    assert Attend(s, retryAfterRefresh, a, r, retry) == Respond(s, token, a);
  }

  /** With a valid token, a 400 naming an "already done" keyword is a silent success with the fixed message. */
  lemma AttendAlreadyChecked(s: Snapshot, retryAfterRefresh: bool, a: Attempt, r: Refresh, retry: Attempt, token: Json)
    requires BearerToken(s.store, a.clock.millis) == Some(token)
    requires a.reply.Response? && a.reply.status == 400 && AlreadyDone(DecodeMessage(a.reply.text, a.reply.json))
    ensures var (s', res) := Attend(s, retryAfterRefresh, a, r, retry);
            res == AlreadyChecked(a.reply.text) &&
            s'.history == Logged(s.history, MakeRecord(true, ALREADY_CHECKED_MESSAGE, true, a.clock)) &&
            s'.events == s.events + [Request(token, a)] &&
            s'.store == s.store + RecordFields(s'.history[0])
  {
  }

  /** With a valid token, every other response fails with the status and the decoded message. */
  lemma AttendRejected(s: Snapshot, retryAfterRefresh: bool, a: Attempt, r: Refresh, retry: Attempt, token: Json)
    requires BearerToken(s.store, a.clock.millis) == Some(token)
    requires a.reply.Response? && Classify(a.reply.status, DecodeMessage(a.reply.text, a.reply.json)) == Rejected
    ensures var (s', res) := Attend(s, retryAfterRefresh, a, r, retry);
            var e := HttpError(a.reply.status, DecodeMessage(a.reply.text, a.reply.json));
            res == Failed(e) &&
            s'.history == Logged(s.history, MakeRecord(false, e, false, a.clock)) &&
            s'.events == s.events + [Request(token, a),
                                     Notified(NOTIFICATION_PREFIX + FAILURE_TITLE, "오류: " + NatToString(a.reply.status))]
  {
    assert Attend(s, retryAfterRefresh, a, r, retry) == Respond(s, token, a);
  }

  /** With a valid token, a transport failure fails with the exception's message, or a fixed one when it has none. */
  lemma AttendThrown(s: Snapshot, retryAfterRefresh: bool, a: Attempt, r: Refresh, retry: Attempt, token: Json)
    requires BearerToken(s.store, a.clock.millis) == Some(token)
    requires a.reply.Thrown?
    ensures var (s', res) := Attend(s, retryAfterRefresh, a, r, retry);
            var e := if a.reply.message == "" then NETWORK_ERROR else a.reply.message;
            res == Failed(e) &&
            s'.history == Logged(s.history, MakeRecord(false, e, false, a.clock)) &&
            s'.events == s.events + [Request(token, a),
                                     Notified(NOTIFICATION_PREFIX + FAILURE_TITLE, e)] &&
            s'.store == s.store + RecordFields(s'.history[0])
  {
    assert Attend(s, retryAfterRefresh, a, r, retry) == Respond(s, token, a);
  }

  /** Only a 401 or 403 touches the credential: after any other reply the token and expiry are as before. */
  lemma AttendKeepsCredential(s: Snapshot, a: Attempt, r: Refresh, retry: Attempt, token: Json)
    requires BearerToken(s.store, a.clock.millis) == Some(token)
    requires !(a.reply.Response? && AuthRejected(a.reply.status))
    ensures var s' := Attend(s, true, a, r, retry).0;
            Lookup(s'.store, "bearerToken") == Lookup(s.store, "bearerToken") &&
            Lookup(s'.store, "tokenExpiry") == Lookup(s.store, "tokenExpiry")
  {
  }

  /**
   * When the refresh harvests a usable token, the retried call goes through
   * with it: one tab is opened and closed, then the request is sent.
   */
  lemma AttendRetriesWithHarvestedToken(s: Snapshot, a: Attempt, r: Refresh, retry: Attempt)
    requires BearerToken(s.store, a.clock.millis).None?
    requires r.harvest.Some? && Truthy(r.harvest.value.token)
    requires !(Truthy(r.harvest.value.expiry) && ExpiryPassed(r.clock.millis, r.harvest.value.expiry))
    requires !(Truthy(r.harvest.value.expiry) && ExpiryPassed(retry.clock.millis, r.harvest.value.expiry))
    ensures var s' := Attend(s, true, a, r, retry).0;
            |s'.events| > |s.events| + 2 &&
            s'.events[|s.events|..|s.events| + 3] ==
              [TabOpened(REFRESH_URL), TabClosed, Request(r.harvest.value.token, retry)]
  {
    RetryRespondsWithHarvest(s, a, r, retry);
    RespondAfterTabs(s, Refreshed(s, r), r.harvest.value.token, retry);
  }

  /** Responding after the two tab events puts the request right behind them. */
  lemma RespondAfterTabs(s: Snapshot, s1: Snapshot, token: Json, retry: Attempt)
    requires s1.events == s.events + [TabOpened(REFRESH_URL), TabClosed]
    ensures var es := Respond(s1, token, retry).0.events;
            |es| > |s.events| + 2 &&
            es[|s.events|..|s.events| + 3] == [TabOpened(REFRESH_URL), TabClosed, Request(token, retry)]
  {
    RequestAfterTabs(Respond(s1, token, retry).0.events, s1.events, s.events, Request(token, retry));
  }

  /** Events that extend `pre` by the two tab events and then `request`. */
  lemma RequestAfterTabs(es: seq<Event>, tabbed: seq<Event>, pre: seq<Event>, request: Event)
    requires tabbed == pre + [TabOpened(REFRESH_URL), TabClosed]
    requires |es| > |tabbed| && es[..|tabbed| + 1] == tabbed + [request]
    ensures |es| > |pre| + 2 && es[|pre|..|pre| + 3] == [TabOpened(REFRESH_URL), TabClosed, request]
  {
    SliceOfPrefix(es, pre + [TabOpened(REFRESH_URL), TabClosed, request], |pre|);
  }

  /** A slice of a known prefix is the same slice of that prefix. */
  lemma SliceOfPrefix<T>(es: seq<T>, p: seq<T>, n: nat)
    requires |p| <= |es| && es[..|p|] == p && n <= |p|
    ensures es[n..|p|] == p[n..]
  {
    assert es[n..|p|] == es[..|p|][n..];
  }

  /** After a refresh that stored a usable token, the routine responds with that token. */
  lemma RetryRespondsWithHarvest(s: Snapshot, a: Attempt, r: Refresh, retry: Attempt)
    requires BearerToken(s.store, a.clock.millis).None?
    requires r.harvest.Some? && Truthy(r.harvest.value.token)
    requires !(Truthy(r.harvest.value.expiry) && ExpiryPassed(r.clock.millis, r.harvest.value.expiry))
    requires !(Truthy(r.harvest.value.expiry) && ExpiryPassed(retry.clock.millis, r.harvest.value.expiry))
    ensures Refreshed(s, r).events == s.events + [TabOpened(REFRESH_URL), TabClosed]
    ensures Attend(s, true, a, r, retry) == Respond(Refreshed(s, r), r.harvest.value.token, retry)
  {
    var s1 := Refreshed(s, r);
    assert s1.store == ApplyTokenUpdate(s.store, r.harvest.value, r.clock);
    TokenUpdateRoundTrip(s.store, r.harvest.value, r.clock, r.clock.millis);
    TokenUpdateRoundTrip(s.store, r.harvest.value, r.clock, retry.clock.millis);
  }

  // ---------------------------------------------------------------------------
  // The worker

  /** The one alarm the worker keeps, under `ALARM_NAME`. */
  datatype Alarm = Alarm(delayInMinutes: Json, periodInMinutes: Json)

  /** The settings write of `SAVE_SETTINGS`. */
  function StoreSettings(store: Store, delayInMinutes: int, periodInMinutes: int): Store
  {
    store["alarmDelayMinutes" := JNum(delayInMinutes)]["alarmPeriodMinutes" := JNum(periodInMinutes)]
  }

  /** Saved non-zero settings are what the next configuration read returns. */
  lemma SettingsRoundTrip(store: Store, delayInMinutes: int, periodInMinutes: int)
    requires delayInMinutes != 0 && periodInMinutes != 0
    ensures GetAlarmConfig(StoreSettings(store, delayInMinutes, periodInMinutes)) ==
            AlarmConfig(ALARM_NAME, JNum(delayInMinutes), JNum(periodInMinutes))
  {
  }

  class Worker {
    var store: Store
    var history: seq<AttendanceRecord>
    var events: seq<Event>
    var alarm: Option<Alarm>

    /** The log stays within its cap and every record in it is well formed. */
    ghost predicate Valid()
      reads this
    {
      |history| <= HISTORY_CAP && forall r :: r in history ==> WellFormed(r)
    }

    function Snap(): Snapshot
      reads this
    {
      Snapshot(store, history, events)
    }

    constructor ()
      ensures Valid() && store == map[] && history == [] && events == [] && alarm.None?
    {
      store := map[];
      history := [];
      events := [];
      alarm := None;
    }

    method SaveAttendanceResult(success: bool, message: string, alreadyChecked: bool, clock: Clock)
      requires Valid()
      modifies this`store, this`history
      ensures Valid()
      ensures Snap() == Save(old(Snap()), success, message, alreadyChecked, clock)
    {
      var record := MakeRecord(success, message, alreadyChecked, clock);
      var h := history;
      h := [record] + h;
      if |h| > HISTORY_CAP {
        h := h[..|h| - 1];
      }
      store := store + RecordFields(record);
      history := h;
    }

    method ShowNotification(title: string, message: string)
      modifies this`events
      ensures events == old(events) + [Notified(NOTIFICATION_PREFIX + title, message)]
    {
      events := events + [Notified(NOTIFICATION_PREFIX + title, message)];
    }

    /** The `TOKEN_UPDATE` handler. */
    method HandleTokenUpdate(data: TokenData, clock: Clock)
      modifies this`store
      ensures store == ApplyTokenUpdate(old(store), data, clock)
    {
      var update := map["bearerToken" := data.token,
                        "tokenExpiry" := if Truthy(data.expiry) then data.expiry else JNull,
                        "tokenUpdatedAt" := JStr(clock.iso)];
      if TruthyOpt(data.userInfo) {
        update := update["userName" := UserName(data.userInfo.value)]["userInfo" := data.userInfo.value];
      }
      store := store + update;
    }

    method RefreshTokenAutomatically(r: Refresh) returns (refreshed: bool)
      modifies this`store, this`events
      ensures Snap() == Refreshed(old(Snap()), r)
      ensures refreshed <==> BearerToken(store, r.clock.millis).Some?
    {
      events := events + [TabOpened(REFRESH_URL)];
      if r.harvest.Some? {
        HandleTokenUpdate(r.harvest.value, r.clock);
      }
      events := events + [TabClosed];
      refreshed := BearerToken(store, r.clock.millis).Some?;
    }

    method SendAttendance(retryAfterRefresh: bool, a: Attempt, r: Refresh, retry: Attempt) returns (res: Outcome)
      requires Valid()
      modifies this`store, this`history, this`events
      ensures Valid()
      ensures (Snap(), res) == Attend(old(Snap()), retryAfterRefresh, a, r, retry)
      decreases if retryAfterRefresh then 1 else 0
    {
      var bearerToken := BearerToken(store, a.clock.millis);
      if bearerToken.None? {
        if retryAfterRefresh {
          var refreshed := RefreshTokenAutomatically(r);
          if refreshed {
            res := SendAttendance(false, retry, r, retry);
            return;
          }
          SaveAttendanceResult(false, NO_TOKEN_ERROR, false, r.clock);
        } else {
          SaveAttendanceResult(false, NO_TOKEN_ERROR, false, a.clock);
        }
        ShowNotification(FAILURE_TITLE, NO_TOKEN_ERROR);
        return Failed(NO_TOKEN_ERROR);
      }
      res := Post(bearerToken.value, a);
    }

    /** The request with a valid token and everything done with its reply. */
    method Post(token: Json, a: Attempt) returns (res: Outcome)
      requires Valid()
      modifies this`store, this`history, this`events
      ensures Valid()
      ensures (Snap(), res) == Respond(old(Snap()), token, a)
    {
      events := events + [Request(token, a)];
      res := HandleReply(a.reply, a.clock);
    }

    /** The part of `sendAttendance` after `fetch` returned or threw. */
    method HandleReply(reply: Reply, clock: Clock) returns (res: Outcome)
      requires Valid()
      modifies this`store, this`history, this`events
      ensures Valid()
      ensures (Snap(), res) == Conclude(old(Snap()), reply, clock)
    {
      ghost var s0 := Snap();
      match reply
      case Thrown(message) =>
        var errorMsg := if message == "" then NETWORK_ERROR else message;
        SaveAttendanceResult(false, errorMsg, false, clock);
        ShowNotification(FAILURE_TITLE, errorMsg);
        assert Snap() == Finish(s0, false, errorMsg, false, clock, Some((FAILURE_TITLE, errorMsg)));
        return Failed(errorMsg);
      case Response(status, text, json) =>
        var decodedMessage := DecodeMessage(text, json);
        if 200 <= status <= 299 {
          SaveAttendanceResult(true, decodedMessage, false, clock);
          ShowNotification(SUCCESS_TITLE, SUCCESS_BODY);
          assert Snap() == Finish(s0, true, decodedMessage, false, clock, Some((SUCCESS_TITLE, SUCCESS_BODY)));
          assert Classify(status, decodedMessage) == Ok;
          return Succeeded(text);
        }
        var errorMsg := HttpError(status, decodedMessage);
        if status == 400 && AlreadyDone(decodedMessage) {
          SaveAttendanceResult(true, ALREADY_CHECKED_MESSAGE, true, clock);
          assert Snap() == Finish(s0, true, ALREADY_CHECKED_MESSAGE, true, clock, None);
          assert Classify(status, decodedMessage) == Done;
          return AlreadyChecked(text);
        }
        if status == 401 || status == 403 {
          store := store - {"bearerToken", "tokenExpiry"};
        }
        assert Classify(status, decodedMessage) == Rejected;
        ghost var s1 := Snap();
        SaveAttendanceResult(false, errorMsg, false, clock);
        ShowNotification(FAILURE_TITLE, "오류: " + NatToString(status));
        assert Snap() == Finish(s1, false, errorMsg, false, clock, Some((FAILURE_TITLE, "오류: " + NatToString(status))));
        return Failed(errorMsg);
    }

    /** The alarm listener: only the worker's own alarm starts the routine. */
    method OnAlarm(name: string, a: Attempt, r: Refresh, retry: Attempt) returns (res: Option<Outcome>)
      requires Valid()
      modifies this`store, this`history, this`events
      ensures Valid()
      ensures name != ALARM_NAME ==> res.None? && Snap() == old(Snap())
      ensures name == ALARM_NAME ==> res.Some? && (Snap(), res.value) == Attend(old(Snap()), true, a, r, retry)
    {
      if name == ALARM_NAME {
        var outcome := SendAttendance(true, a, r, retry);
        return Some(outcome);
      }
      return None;
    }

    /** The `MANUAL_ATTENDANCE` request: the routine, with refreshing allowed. */
    method ManualAttendance(a: Attempt, r: Refresh, retry: Attempt) returns (res: Outcome)
      requires Valid()
      modifies this`store, this`history, this`events
      ensures Valid()
      ensures (Snap(), res) == Attend(old(Snap()), true, a, r, retry)
    {
      res := SendAttendance(true, a, r, retry);
    }

    /** Installation or update: the alarm is replaced with the configured one. */
    method OnInstalled(reason: string)
      modifies this`alarm, this`events
      ensures alarm == Some(Alarm(GetAlarmConfig(store).delayInMinutes, GetAlarmConfig(store).periodInMinutes))
      ensures events == old(events) + (if reason == "install" then [Notified(NOTIFICATION_PREFIX + INSTALLED_TITLE, INSTALLED_BODY)] else [])
    {
      var config := GetAlarmConfig(store);
      alarm := None;
      alarm := Some(Alarm(config.delayInMinutes, config.periodInMinutes));
      if reason == "install" {
        ShowNotification(INSTALLED_TITLE, INSTALLED_BODY);
      }
    }

    /** Browser start: the alarm is re-created only if it is missing. */
    method OnStartup()
      modifies this`alarm
      ensures old(alarm).Some? ==> alarm == old(alarm)
      ensures old(alarm).None? ==> alarm == Some(Alarm(GetAlarmConfig(store).delayInMinutes, GetAlarmConfig(store).periodInMinutes))
    {
      var config := GetAlarmConfig(store);
      if alarm.None? {
        alarm := Some(Alarm(config.delayInMinutes, config.periodInMinutes));
      }
    }

    /** `SAVE_SETTINGS`: store the values and re-create the alarm with them. */
    method SaveSettings(delayInMinutes: int, periodInMinutes: int)
      modifies this`store, this`alarm
      ensures store == StoreSettings(old(store), delayInMinutes, periodInMinutes)
      ensures alarm == Some(Alarm(JNum(delayInMinutes), JNum(periodInMinutes)))
    {
      store := StoreSettings(store, delayInMinutes, periodInMinutes);
      alarm := Some(Alarm(JNum(delayInMinutes), JNum(periodInMinutes)));
    }

    /** `CLEAR_LOGS`. */
    method ClearLogs()
      requires Valid()
      modifies this`history
      ensures Valid() && history == []
    {
      history := [];
    }

    /** `RESET_ALL`: everything is erased and the alarm is re-created with the defaults. */
    method ResetAll()
      requires Valid()
      modifies this`store, this`history, this`alarm
      ensures Valid() && store == map[] && history == []
      ensures alarm == Some(Alarm(JNum(DEFAULT_DELAY_MINUTES), JNum(DEFAULT_PERIOD_MINUTES)))
      ensures BearerToken(store, 0).None? && GetAlarmConfig(store) == AlarmConfig(ALARM_NAME, JNum(1), JNum(60))
    {
      store := map[];
      history := [];
      alarm := Some(Alarm(JNum(DEFAULT_DELAY_MINUTES), JNum(DEFAULT_PERIOD_MINUTES)));
    }
  }
}
