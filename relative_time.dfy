/** `formatRelativeTime`, defined identically on the weather and the email
    page: the age of an entry in whole minutes, hours or days. */
module RelativeTime {
  import opened Wrappers
  import Text

  /** The buckets `formatRelativeTime` answers with. `LocaleDate` stands for
      `toLocaleDateString()`, whose wording depends on the locale. */
  datatype RelativeTime = JustNow | MinutesAgo(minutes: nat) | HoursAgo(hours: nat) | DaysAgo(days: nat) | LocaleDate

  /** `Math.floor((now - then) / 1000)` for millisecond instants: the whole
      seconds elapsed, rounded toward minus infinity (so a timestamp in the
      future gives a negative number). */
  function ElapsedSeconds(nowMs: int, thenMs: int): (d: int)
    ensures d * 1000 <= nowMs - thenMs < (d + 1) * 1000
  {
    (nowMs - thenMs) / 1000
  }

  /** `formatRelativeTime(timestamp)` at the instant `nowMs`; `thenMs` is
      `None` when the timestamp does not parse, in which case every
      comparison with the resulting NaN is false and the date is shown. */
  function FormatRelativeTime(nowMs: int, thenMs: Option<int>): (r: RelativeTime)
    ensures thenMs.None? ==> r == LocaleDate
    ensures thenMs.Some? ==>
      var d := ElapsedSeconds(nowMs, thenMs.value);
      && (r == JustNow <==> d < 60)
      && (r.MinutesAgo? <==> 60 <= d < 3600)
      && (r.HoursAgo? <==> 3600 <= d < 86400)
      && (r.DaysAgo? <==> 86400 <= d < 604800)
      && (r == LocaleDate <==> 604800 <= d)
    ensures r.MinutesAgo? ==> 1 <= r.minutes <= 59
    ensures r.HoursAgo? ==> 1 <= r.hours <= 23
    ensures r.DaysAgo? ==> 1 <= r.days <= 6
  {
    match thenMs
    case None => LocaleDate
    case Some(t) =>
      var d := ElapsedSeconds(nowMs, t);
      if d < 60 then JustNow
      else if d < 3600 then MinutesAgo(d / 60)
      else if d < 86400 then HoursAgo(d / 3600)
      else if d < 604800 then DaysAgo(d / 86400)
      else LocaleDate
  }

  /** The number shown is the elapsed time rounded down to its unit. */
  lemma FormatRelativeTimeFloors(nowMs: int, thenMs: int)
    ensures var d := ElapsedSeconds(nowMs, thenMs);
      match FormatRelativeTime(nowMs, Some(thenMs))
      case MinutesAgo(m) => m * 60 <= d < (m + 1) * 60
      case HoursAgo(h) => h * 3600 <= d < (h + 1) * 3600
      case DaysAgo(n) => n * 86400 <= d < (n + 1) * 86400
      case _ => true
  {
  }

  /** Coarseness of a bucket: finer buckets come first. */
  function Rank(r: RelativeTime): nat {
    match r
    case JustNow => 0
    case MinutesAgo(_) => 1
    case HoursAgo(_) => 2
    case DaysAgo(_) => 3
    case LocaleDate => 4
  }

  /** An older timestamp never lands in a finer bucket, and within one bucket
      never shows a smaller number. */
  lemma OlderIsCoarser(nowMs: int, newer: int, older: int)
    requires older <= newer
    ensures var a := FormatRelativeTime(nowMs, Some(newer));
            var b := FormatRelativeTime(nowMs, Some(older));
            && Rank(a) <= Rank(b)
            && (a.MinutesAgo? && b.MinutesAgo? ==> a.minutes <= b.minutes)
            && (a.HoursAgo? && b.HoursAgo? ==> a.hours <= b.hours)
            && (a.DaysAgo? && b.DaysAgo? ==> a.days <= b.days)
  {
    var dn := ElapsedSeconds(nowMs, newer);
    var dO := ElapsedSeconds(nowMs, older);
    assert dn <= dO;
  }

  /** The text shown for every bucket but `LocaleDate`: "Just now",
      "<n>m ago", "<n>h ago", "<n>d ago". */
  function Caption(r: RelativeTime): (c: string)
    requires !r.LocaleDate?
    ensures r.JustNow? ==> c == "Just now"
    ensures !r.JustNow? ==>
      && |c| >= 5 && c[|c| - 5] == UnitLetter(r)
      && c[..|c| - 5] == Text.Decimal(Count(r)) && c[|c| - 4..] == " ago"
  {
    match r
    case JustNow => "Just now"
    case MinutesAgo(m) => Text.Decimal(m) + "m ago"
    case HoursAgo(h) => Text.Decimal(h) + "h ago"
    case DaysAgo(n) => Text.Decimal(n) + "d ago"
  }

  /** Different buckets, or different counts, never show the same text. */
  lemma {:induction false} CaptionInjective(a: RelativeTime, b: RelativeTime)
    requires !a.LocaleDate? && !b.LocaleDate?
    ensures Caption(a) == Caption(b) ==> a == b
  {
    if Caption(a) == Caption(b) {
      var c := Caption(a);
      if a.JustNow? || b.JustNow? {
        // "Just now" has a 't' where every other caption has its unit letter.
        assert c[|c| - 5] == 't';
      } else {
        assert UnitLetter(a) == c[|c| - 5] == UnitLetter(b);
        var n := Count(a);
        var m := Count(b);
        assert Text.Decimal(n) == c[..|c| - 5] == Text.Decimal(m);
        Text.DecimalInjective(n, m);
      }
    }
  }

  /** The letter after the count: m, h or d. */
  function UnitLetter(r: RelativeTime): char
    requires !r.LocaleDate? && !r.JustNow?
  {
    match r
    case MinutesAgo(_) => 'm'
    case HoursAgo(_) => 'h'
    case DaysAgo(_) => 'd'
  }

  function Count(r: RelativeTime): nat
    requires !r.LocaleDate? && !r.JustNow?
  {
    match r
    case MinutesAgo(m) => m
    case HoursAgo(h) => h
    case DaysAgo(n) => n
  }
}
