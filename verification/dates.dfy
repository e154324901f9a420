/** Calendar dates as the loggers read them from the clock, and a reader for
    the `year-month-day` text they render. The clock itself is an input. */
module Dates {
  import opened Wrappers
  import opened Text

  /** A calendar date as `moment`/`Date` expose it: full year, 0-based month
      index, 1-based day of month. */
  datatype CalendarDate = CalendarDate(year: nat, monthIndex: nat, day: nat)

  predicate Valid(d: CalendarDate) {
    d.monthIndex < 12 && 1 <= d.day <= 31
  }

  /** A date read back from text: year, 1-based month, day. */
  datatype Ymd = Ymd(year: nat, month: nat, day: nat)

  /** A non-empty run of decimal digits. */
  predicate NumberPart(x: string) {
    1 <= |x| && AllDigits(x)
  }

  /** Reads `year-month-day` where each part is a non-empty run of digits. */
  function ParseDashed(s: string): (r: Option<Ymd>)
    ensures r.Some? ==> |Split(s, '-')| == 3
  {
    var parts := Split(s, '-');
    if |parts| == 3 && NumberPart(parts[0]) && NumberPart(parts[1]) && NumberPart(parts[2]) then
      Some(Ymd(ParseDigits(parts[0]), ParseDigits(parts[1]), ParseDigits(parts[2])))
    else
      None
  }

  /** A run of digits holds no dash. */
  lemma DigitsHoldNoDash(s: string)
    requires AllDigits(s)
    ensures '-' !in s
  {
  }

  /** Three digit runs joined by dashes read back as the three numbers. */
  lemma ParseDashedOfParts(a: string, b: string, c: string)
    requires 1 <= |a| && AllDigits(a)
    requires 1 <= |b| && AllDigits(b)
    requires 1 <= |c| && AllDigits(c)
    ensures Split(a + "-" + b + "-" + c, '-') == [a, b, c]
    ensures ParseDashed(a + "-" + b + "-" + c) == Some(Ymd(ParseDigits(a), ParseDigits(b), ParseDigits(c)))
  {
    DigitsHoldNoDash(a);
    DigitsHoldNoDash(b);
    DigitsHoldNoDash(c);
    var tail := b + ['-'] + c;
    assert a + "-" + b + "-" + c == a + ['-'] + tail;
    SplitFirst(a, '-', tail);
    SplitFirst(b, '-', c);
    SplitNone(c, '-');
    assert Split(a + "-" + b + "-" + c, '-') == [a, b, c];
    assert NumberPart(a) && NumberPart(b) && NumberPart(c);
  }
}
