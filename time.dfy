/**
 * Naive UTC date-times as Python's `datetime` holds them, with the two
 * renderings the core uses: `isoformat()` (the read API) and
 * `strftime("%Y%m%d")` (the ticket identifier).
 */
module Time {
  import opened Common
  import opened Text

  datatype Instant = Instant(year: int, month: int, day: int, hour: int, minute: int, second: int, microsecond: int)

  predicate IsLeapYear(y: int) {
    y % 4 == 0 && (y % 100 != 0 || y % 400 == 0)
  }

  function DaysInMonth(y: int, m: int): int {
    if m == 2 then (if IsLeapYear(y) then 29 else 28)
    else if m == 4 || m == 6 || m == 9 || m == 11 then 30
    else 31
  }

  /** The ranges Python's `datetime` constructor enforces. */
  predicate ValidInstant(t: Instant) {
    && 1 <= t.year <= 9999
    && 1 <= t.month <= 12
    && 1 <= t.day <= DaysInMonth(t.year, t.month)
    && 0 <= t.hour < 24
    && 0 <= t.minute < 60
    && 0 <= t.second < 60
    && 0 <= t.microsecond < 1000000
  }

  type DateTime = t: Instant | ValidInstant(t) witness Instant(1970, 1, 1, 0, 0, 0, 0)

  /** Three fixed-width decimal fields joined by a separator: "YYYY-MM-DD" or "HH:MM:SS". */
  function Triple(a: nat, wa: nat, b: nat, c: nat, sep: char): (s: string)
    ensures |s| == wa + 6
  {
    Render(a, 10, wa) + [sep] + Render(b, 10, 2) + [sep] + Render(c, 10, 2)
  }

  function ParseTriple(s: string, wa: nat, sep: char): Option<(nat, nat, nat)>
    requires |s| == wa + 6
  {
    if s[wa] != sep || s[wa + 3] != sep then None
    else
      match (Parse(s[..wa], 10), Parse(s[wa + 1..wa + 3], 10), Parse(s[wa + 4..], 10))
      case (Some(a), Some(b), Some(c)) => Some((a, b, c))
      case _ => None
  }

  lemma TripleRoundTrip(a: nat, wa: nat, b: nat, c: nat, sep: char)
    requires a < Pow(10, wa) && b < 100 && c < 100
    ensures ParseTriple(Triple(a, wa, b, c, sep), wa, sep) == Some((a, b, c))
  {
    var s := Triple(a, wa, b, c, sep);
    assert s[..wa] == Render(a, 10, wa);
    assert s[wa + 1..wa + 3] == Render(b, 10, 2);
    assert s[wa + 4..] == Render(c, 10, 2);
    ParseRender(a, 10, wa);
    ParseRender(b, 10, 2);
    ParseRender(c, 10, 2);
  }

  /** What follows the seconds: ".ffffff", present only when the microsecond is not zero. */
  function Fraction(us: nat): string {
    if us != 0 then "." + Render(us, 10, 6) else ""
  }

  function ParseFraction(s: string): Option<nat> {
    if s == [] then Some(0)
    else if |s| == 7 && s[0] == '.' then Parse(s[1..], 10)
    else None
  }

  /** `d.isoformat()` for a naive datetime: YYYY-MM-DDTHH:MM:SS, followed by
      .ffffff only when the microsecond is not zero. */
  function IsoFormat(d: DateTime): string {
    Triple(d.year, 4, d.month, d.day, '-') + "T" + Triple(d.hour, 2, d.minute, d.second, ':') + Fraction(d.microsecond)
  }

  /** Reads back what IsoFormat writes; None for anything else. */
  function ParseIso(s: string): Option<DateTime> {
    if |s| < 19 || s[10] != 'T' then None
    else
      match (ParseTriple(s[..10], 4, '-'), ParseTriple(s[11..19], 2, ':'), ParseFraction(s[19..]))
      case (Some((y, mo, d)), Some((h, mi, se)), Some(us)) =>
        var t := Instant(y, mo, d, h, mi, se, us);
        if ValidInstant(t) then Some(t) else None
      case _ => None
  }

  /** The ISO rendering of a datetime is 19 characters, or 26 with microseconds, and parses back to it. */
  lemma IsoRoundTrip(d: DateTime)
    ensures |IsoFormat(d)| == (if d.microsecond != 0 then 26 else 19)
    ensures ParseIso(IsoFormat(d)) == Some(d)
  {
    var date := Triple(d.year, 4, d.month, d.day, '-');
    var clock := Triple(d.hour, 2, d.minute, d.second, ':');
    var frac := Fraction(d.microsecond);
    var s := IsoFormat(d);
    assert s == date + "T" + clock + frac;
    assert s[..10] == date && s[10] == 'T' && s[11..19] == clock && s[19..] == frac;
    TripleRoundTrip(d.year, 4, d.month, d.day, '-');
    TripleRoundTrip(d.hour, 2, d.minute, d.second, ':');
    if d.microsecond != 0 {
      assert frac[1..] == Render(d.microsecond, 10, 6);
      ParseRender(d.microsecond, 10, 6);
    }
  }

  /** `d.strftime("%Y%m%d")`. */
  function DateStamp(d: DateTime): (s: string)
    ensures |s| == 8 && forall i :: 0 <= i < 8 ==> IsDigit(s[i], 10)
  {
    Render(d.year, 10, 4) + Render(d.month, 10, 2) + Render(d.day, 10, 2)
  }
}
