/** The log-file location of utility processes: one file per date, session,
    scope and utility instance under the user-data directory. */
module UtilityLogger {
  import opened Wrappers
  import opened Text
  import opened Dates
  import opened Paths

  const UnknownSession := "unknown-session"
  const UnknownInstance := "unknown-utility-instance"
  const UndefinedScope := "undefined-utility-scope"
  const LogFileName := "utility.log"

  /** The environment variables the path builder reads. */
  datatype Env = Env(isPackaged: Option<string>, sessionId: Option<string>, utilityProcessId: Option<string>)

  /** `prod` when `IS_PACKAGED` (default `'false'`) is exactly `'true'`. */
  function Mode(isPackaged: Option<string>): (m: string)
    ensures m == "prod" || m == "dev"
    ensures m == "prod" <==> isPackaged == Some("true")
  {
    if Or(isPackaged, "false") == "true" then "prod" else "dev"
  }

  /** `YYYY-MM-DD` from a UTC date: 1-based month, month and day padded to
      two digits. */
  function DatePath(d: CalendarDate): string {
    NatToString(d.year) + "-" + PadStart2(NatToString(d.monthIndex + 1)) + "-" + PadStart2(NatToString(d.day))
  }

  /** Numbers below 100 render in at most two digits. */
  lemma {:induction false} TwoDigits(n: nat)
    requires n < 100
    ensures |NatToString(n)| <= 2
  {
    if n >= 10 {
      assert NatToString(n) == NatToString(n / 10) + [DigitChar(n % 10)];
    }
  }

  /** The date segment reads back as year, 1-based month and day; for a valid
      date the month and day parts are exactly two characters. */
  lemma DatePathReadsBack(d: CalendarDate)
    ensures ParseDashed(DatePath(d)) == Some(Ymd(d.year, d.monthIndex + 1, d.day))
    ensures var parts := Split(DatePath(d), '-');
      && |parts| == 3
      && parts[0] == NatToString(d.year)
      && parts[1] == PadStart2(NatToString(d.monthIndex + 1))
      && parts[2] == PadStart2(NatToString(d.day))
      && (Valid(d) ==> |parts[1]| == 2 && |parts[2]| == 2)
    ensures Valid(d) ==> |DatePath(d)| == |NatToString(d.year)| + 6
  {
    ParsePadded(d.monthIndex + 1);
    ParsePadded(d.day);
    ParseNatToString(d.year);
    ParseDashedOfParts(NatToString(d.year), PadStart2(NatToString(d.monthIndex + 1)), PadStart2(NatToString(d.day)));
    if Valid(d) {
      TwoDigits(d.monthIndex + 1);
      TwoDigits(d.day);
    }
  }

  /** `resolvePathFn(variables, message)`: userData / logs / mode / date /
      session / scope / utility id / utility.log. */
  function ResolvePath(userData: Path, env: Env, scope: Option<string>, now: CalendarDate): (p: Path)
    ensures |p| == |userData| + 7 && p[..|userData|] == userData
    ensures p[|userData|] == "logs"
    ensures p[|userData| + 1] == Mode(env.isPackaged)
    ensures p[|userData| + 2] == DatePath(now)
    ensures p[|userData| + 3] == Or(env.sessionId, UnknownSession)
    ensures p[|userData| + 4] == Or(scope, UndefinedScope)
    ensures p[|userData| + 5] == Or(env.utilityProcessId, UnknownInstance)
    ensures p[|userData| + 6] == "utility.log"
  {
    var tail := [
      "logs",
      Mode(env.isPackaged),
      DatePath(now),
      Or(env.sessionId, UnknownSession),
      Or(scope, UndefinedScope),
      Or(env.utilityProcessId, UnknownInstance),
      LogFileName
    ];
    var p := userData + tail;
    assert p[..|userData|] == userData;
    p
  }

  /** What each segment of the utility log path means: the mode is `prod`
      exactly for `IS_PACKAGED=true`, the date reads back as the UTC date,
      empty or missing values fall back to their defaults, and the file name
      never varies. */
  lemma ResolvePathSegments(userData: Path, env: Env, scope: Option<string>, now: CalendarDate)
    ensures var p := ResolvePath(userData, env, scope, now);
      && (p[|userData| + 1] == "prod" <==> env.isPackaged == Some("true"))
      && (p[|userData| + 1] == "dev" <==> env.isPackaged != Some("true"))
      && ParseDashed(p[|userData| + 2]) == Some(Ymd(now.year, now.monthIndex + 1, now.day))
      && (Valid(now) ==> |p[|userData| + 2]| == |NatToString(now.year)| + 6)
      && (env.sessionId.Some? && env.sessionId.value != "" ==> p[|userData| + 3] == env.sessionId.value)
      && (env.sessionId.None? || env.sessionId.value == "" ==> p[|userData| + 3] == UnknownSession)
      && (scope.Some? && scope.value != "" ==> p[|userData| + 4] == scope.value)
      && (scope.None? || scope.value == "" ==> p[|userData| + 4] == UndefinedScope)
      && (env.utilityProcessId.Some? && env.utilityProcessId.value != "" ==> p[|userData| + 5] == env.utilityProcessId.value)
      && (env.utilityProcessId.None? || env.utilityProcessId.value == "" ==> p[|userData| + 5] == UnknownInstance)
  {
    DatePathReadsBack(now);
  }
}
