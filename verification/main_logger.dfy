/** The main process logger: file-transport configuration and the forwarder
    for log calls coming from renderer processes. */
module MainLogger {
  import opened Wrappers
  import opened Text
  import opened Dates
  import opened Paths
  import Constants

  /** The logging levels the logger object offers as methods. */
  const LogMethods: set<string> := {"error", "warn", "info", "verbose", "debug", "silly"}

  const MaxLogFileBytes: nat := 10 * 1024 * 1024
  const LogFormat := "[{y}-{m}-{d} {h}:{i}:{s}.{ms}][{processType}][{level}]{scope} {text}"

  /** `year-month-day`: 1-based month, nothing padded. The date comes from
      `Date#getDate` and friends, so it is a local-time date. */
  function DateStr(d: CalendarDate): string {
    NatToString(d.year) + "-" + NatToString(d.monthIndex + 1) + "-" + NatToString(d.day)
  }

  /** A number written without zero padding: a leading `0` only in `0`. */
  predicate Unpadded(x: string) {
    1 <= |x| && (x[0] == '0' ==> x == "0")
  }

  /** The date string has three dash-separated parts, none zero-padded, and
      reads back as year, 1-based month and day. */
  lemma DateStrReadsBack(d: CalendarDate)
    ensures var parts := Split(DateStr(d), '-');
      |parts| == 3 && Unpadded(parts[0]) && Unpadded(parts[1]) && Unpadded(parts[2])
    ensures ParseDashed(DateStr(d)) == Some(Ymd(d.year, d.monthIndex + 1, d.day))
  {
    ParseNatToString(d.year);
    ParseNatToString(d.monthIndex + 1);
    ParseNatToString(d.day);
    ParseDashedOfParts(NatToString(d.year), NatToString(d.monthIndex + 1), NatToString(d.day));
  }

  /** The part of Electron's `app` the configuration reads. */
  datatype App = App(appData: Path)

  /** The settings of the file transport this module assigns; `None` means
      left at the library default. */
  datatype FileTransport = FileTransport(
    resolvedPath: Option<Path>,
    fileName: Option<string>,
    format: Option<string>,
    maxSize: Option<nat>)

  /** The guarded configuration block: only when `app` is available, set the
      path appData / APP_NAME / log / date / SESSION_ID.log, the file name
      date.log, the format and the 10 MiB size cap. */
  function ConfigureFileTransport(t: FileTransport, app: Option<App>, now: CalendarDate, sessionId: string): (c: FileTransport)
    ensures app.None? ==> c == t
    ensures app.Some? ==> c.resolvedPath.Some? && c.fileName.Some? && c.format == Some(LogFormat)
    ensures app.Some? ==> c.maxSize == Some(10485760)
    ensures app.Some? ==>
      var p := c.resolvedPath.value;
      var base := app.value.appData;
      && |p| == |base| + 4 && p[..|base|] == base
      && p[|base|] == Constants.AppName && p[|base| + 1] == "log" && p[|base| + 2] == DateStr(now)
      && c.fileName.value == p[|base| + 2] + ".log"
      && ParseDashed(p[|base| + 2]) == Some(Ymd(now.year, now.monthIndex + 1, now.day))
      && p[|base| + 3] == sessionId + ".log"
  {
    if app.None? then t
    else
      DateStrReadsBack(now);
      var dateStr := DateStr(now);
      FileTransport(
        Some(app.value.appData + [Constants.AppName, "log", dateStr, sessionId + ".log"]),
        Some(dateStr + ".log"),
        Some(LogFormat),
        Some(MaxLogFileBytes))
  }

  /** A call of one of the logger's level methods. */
  datatype LogCall<V> = LogCall(level: string, args: seq<V>)

  /** The `__ELECTRON_LOG__` listener: a renderer log is passed on only when
      its level names a logger method, with `data` spread and `variables`
      appended. */
  function ForwardRendererLog<V>(level: string, data: seq<V>, variables: V): (r: Option<LogCall<V>>)
    ensures r.Some? <==> level in LogMethods
    ensures r.Some? ==> r.value.level == level && |r.value.args| == |data| + 1
    ensures r.Some? ==> r.value.args[..|data|] == data && r.value.args[|data|] == variables
  {
    if level in LogMethods then Some(LogCall(level, data + [variables])) else None
  }
}
