/** The settings page: validation of the alarm settings and the rendering of the attendance log. */
module Settings {
  import opened Wrappers
  import opened Json
  import opened Background

  const MIN_INTERVAL: int := 1
  const MAX_INTERVAL: int := 1440
  const MIN_DELAY: int := 1
  const MAX_DELAY: int := 60
  const DEFAULT_INTERVAL: int := 60
  const DEFAULT_DELAY: int := 1
  const INTERVAL_TOAST: string := "⚠️ 실행 간격은 1~1440분 사이로 설정하세요"
  const DELAY_TOAST: string := "⚠️ 첫 실행 대기는 1~60분 사이로 설정하세요"
  const LOG_MESSAGE_WIDTH: int := 30
  const NO_LOGS: string := "로그가 없습니다"

  /**
   * `parseInt(input) || fallback`: `None` stands for `NaN`; a parsed zero
   * is falsy too and also gives the fallback.
   */
  function OrDefault(parsed: Option<int>, fallback: int): (v: int)
    ensures parsed.Some? && parsed.value != 0 ==> v == parsed.value
    ensures parsed.None? || parsed.value == 0 ==> v == fallback
  {
    if parsed.Some? && parsed.value != 0 then parsed.value else fallback
  }

  /** What pressing "save" does: a warning toast, or a `SAVE_SETTINGS` request with these minutes. */
  datatype SaveResult = Warned(toast: string) | Submitted(periodInMinutes: int, delayInMinutes: int)

  predicate IntervalInRange(interval: int)
  {
    MIN_INTERVAL <= interval <= MAX_INTERVAL
  }

  predicate DelayInRange(delay: int)
  {
    MIN_DELAY <= delay <= MAX_DELAY
  }

  /**
   * `saveAlarmSettings`: the interval is checked first, then the delay; only
   * values in range are sent to the worker.
   */
  function SaveAlarmSettings(intervalInput: Option<int>, delayInput: Option<int>): (r: SaveResult)
    ensures var interval := OrDefault(intervalInput, DEFAULT_INTERVAL);
            var delay := OrDefault(delayInput, DEFAULT_DELAY);
            && (r.Submitted? <==> IntervalInRange(interval) && DelayInRange(delay))
            && (r.Submitted? ==> r.periodInMinutes == interval && r.delayInMinutes == delay)
            && (!IntervalInRange(interval) ==> r == Warned(INTERVAL_TOAST))
            && (IntervalInRange(interval) && !DelayInRange(delay) ==> r == Warned(DELAY_TOAST))
  {
    var interval := OrDefault(intervalInput, DEFAULT_INTERVAL);
    var delay := OrDefault(delayInput, DEFAULT_DELAY);
    if interval < MIN_INTERVAL || interval > MAX_INTERVAL then Warned(INTERVAL_TOAST)
    else if delay < MIN_DELAY || delay > MAX_DELAY then Warned(DELAY_TOAST)
    else Submitted(interval, delay)
  }

  /** An empty or zero field saves the default, never a zero minute alarm. */
  lemma BlankFieldsSaveDefaults(zeroOrBlankInterval: Option<int>, zeroOrBlankDelay: Option<int>)
    requires zeroOrBlankInterval.None? || zeroOrBlankInterval.value == 0
    requires zeroOrBlankDelay.None? || zeroOrBlankDelay.value == 0
    ensures SaveAlarmSettings(zeroOrBlankInterval, zeroOrBlankDelay) == Submitted(DEFAULT_INTERVAL, DEFAULT_DELAY)
  {
  }

  /**
   * Submitted settings, once the worker stores them, are what its next
   * configuration read returns, and the alarm it re-creates uses them.
   */
  lemma SubmittedSettingsTakeEffect(intervalInput: Option<int>, delayInput: Option<int>, store: Store)
    requires SaveAlarmSettings(intervalInput, delayInput).Submitted?
    ensures var r := SaveAlarmSettings(intervalInput, delayInput);
            GetAlarmConfig(StoreSettings(store, r.delayInMinutes, r.periodInMinutes)) ==
              AlarmConfig(ALARM_NAME, JNum(r.delayInMinutes), JNum(r.periodInMinutes))
  {
    var r := SaveAlarmSettings(intervalInput, delayInput);
    SettingsRoundTrip(store, r.delayInMinutes, r.periodInMinutes);
  }

  /**
   * `truncate(str, maxLength)`: the text itself when it fits, otherwise its
   * first `maxLength` characters (none for a negative bound) followed by "...".
   */
  function Truncate(str: string, maxLength: int): (r: string)
    ensures |str| <= maxLength || str == "" ==> r == str
    ensures |str| > maxLength && str != "" ==>
              var keep := if maxLength < 0 then 0 else maxLength;
              |r| == keep + 3 && r[..keep] == str[..keep] && r[keep..] == "..."
    ensures |r| <= |str| || |r| <= (if maxLength < 0 then 0 else maxLength) + 3
  {
    if str == "" then ""
    else if |str| <= maxLength then str
    else str[..if maxLength < 0 then 0 else maxLength] + "..."
  }

  /** One rendered log entry: its style class, status icon, timestamp text and message suffix. */
  datatype LogLine = LogLine(statusClass: string, icon: string, time: string, message: string)

  /** What the log panel shows. */
  datatype LogView = NoLogs(text: string) | Lines(lines: seq<LogLine>)

  function RenderEntry(log: AttendanceRecord): (l: LogLine)
    ensures l.statusClass == (if log.success then "log-success" else "log-error")
    ensures l.icon == (if log.success then "✅" else "❌")
    ensures l.time == log.lastAttempt
    ensures log.message == "" ==> l.message == ""
    ensures log.message != "" ==> |l.message| >= 3 && l.message[..3] == " - " && l.message[3..] == Truncate(log.message, LOG_MESSAGE_WIDTH)
    ensures |l.message| <= 3 + LOG_MESSAGE_WIDTH + 3
  {
    LogLine(if log.success then "log-success" else "log-error",
            if log.success then "✅" else "❌",
            log.lastAttempt,
            if log.message != "" then " - " + Truncate(log.message, LOG_MESSAGE_WIDTH) else "")
  }

  /** `loadLogs`: a placeholder for an empty log, otherwise one line per record in log order. */
  function RenderLogs(logs: seq<AttendanceRecord>): (v: LogView)
    ensures logs == [] <==> v == NoLogs(NO_LOGS)
    ensures v.Lines? ==> |v.lines| == |logs| && forall i :: 0 <= i < |logs| ==> v.lines[i] == RenderEntry(logs[i])
  {
    if logs == [] then NoLogs(NO_LOGS) else Lines(seq(|logs|, i requires 0 <= i < |logs| => RenderEntry(logs[i])))
  }

  /**
   * Once a record is saved, the log panel shows its attempt first, followed
   * by the lines of the older records in their order.
   */
  lemma NewestAttemptShownFirst(history: seq<AttendanceRecord>, record: AttendanceRecord)
    ensures var v := RenderLogs(Logged(history, record));
            v.Lines? && v.lines[0] == RenderEntry(record) && v.lines[0].time == record.lastAttempt &&
            forall i :: 1 <= i < |v.lines| ==> v.lines[i] == RenderEntry(history[i - 1])
  {
    var h := Logged(history, record);
    forall i | 1 <= i < |h|
      ensures h[i] == history[i - 1]
    {
      assert h[i] == h[1..][i - 1];
    }
  }
}
