/**
 * The front end's relative-time label (frontend/src/utils/dateUtils.js):
 * a point in time, compared with the current time, becomes "just now",
 * "N minutes ago", ... "N years ago", or "Invalid date". Times are
 * milliseconds since the epoch; an unparsable input is `None`.
 */
module DateUtils {
  import opened Wrappers
  import opened Text

  const Minute: nat := 60
  const Hour: nat := 60 * Minute
  const Day: nat := 24 * Hour
  const Week: nat := 7 * Day

  datatype Unit = Minutes | Hours | Days | Weeks | Months | Years

  /** The label before it is spelled out. */
  datatype Label = InvalidDate | JustNow | Ago(count: int, unit: Unit)

  function UnitName(u: Unit): (name: string)
    ensures |name| > 0 && name[|name| - 1] != 's'
  {
    match u
    case Minutes => "minute"
    case Hours => "hour"
    case Days => "day"
    case Weeks => "week"
    case Months => "month"
    case Years => "year"
  }

  /** Spells a label out; a count of exactly one takes the singular. */
  function Render(l: Label): (s: string)
    requires l.Ago? ==> l.count >= 0
    ensures l == InvalidDate ==> s == "Invalid date"
    ensures l == JustNow ==> s == "just now"
    ensures l.Ago? ==> HasPrefix(s, NatToString(l.count) + " " + UnitName(l.unit)) && HasSuffix(s, " ago")
    ensures l.Ago? ==> (HasSuffix(s, "s ago") <==> l.count != 1)
  {
    match l
    case InvalidDate => "Invalid date"
    case JustNow => "just now"
    case Ago(n, u) =>
      if n == 1 then
        var s := "1 " + UnitName(u) + " ago";
        assert s[|s| - 5] == UnitName(u)[|UnitName(u)| - 1];
        s
      else NatToString(n) + " " + UnitName(u) + "s ago"
  }

  /** The bucket chain on a difference in whole seconds, as the code writes it. */
  function Classify(seconds: int): (l: Label)
    ensures l != InvalidDate
    ensures l.Ago? ==> l.count >= 0
  {
    if seconds < 60 then JustNow
    else
      var minutes := seconds / 60;
      if minutes < 60 then Ago(minutes, Minutes)
      else
        var hours := minutes / 60;
        if hours < 24 then Ago(hours, Hours)
        else
          var days := hours / 24;
          if days < 7 then Ago(days, Days)
          else
            var weeks := days / 7;
            if weeks < 4 then Ago(weeks, Weeks)
            else
              var months := days / 30;
              if months < 12 then Ago(months, Months)
              else Ago(days / 365, Years)
  }

  /** `formatRelativeTime(date)` evaluated at time `now`. */
  function FormatRelativeTime(date: Option<int>, now: int): (s: string)
    ensures date.None? <==> s == "Invalid date"
    ensures date.Some? && now - date.value < 60000 ==> s == "just now"
    ensures date.Some? && now - date.value >= 60000 ==> HasSuffix(s, " ago")
  {
    if date.None? then Render(InvalidDate)
    else Render(Classify((now - date.value) / 1000))
  }

  /** The chained floor divisions of the source agree with dividing by the whole unit. */
  lemma ChainedDivisions(s: nat)
    ensures s / 60 / 60 == s / Hour
    ensures s / Hour / 24 == s / Day
    ensures s / Day / 7 == s / Week
  {
  }

  /**
   * Each bucket, stated on the difference in seconds: the count is the
   * number of whole units elapsed, and the bucket is chosen by the
   * thresholds 1 minute, 1 hour, 1 day, 7 days, 28 days and 360 days.
   */
  lemma ClassifyBuckets(s: int)
    ensures s < Minute ==> Classify(s) == JustNow
    ensures Minute <= s < Hour ==> Classify(s) == Ago(s / Minute, Minutes)
    ensures Hour <= s < Day ==> Classify(s) == Ago(s / Hour, Hours)
    ensures Day <= s < Week ==> Classify(s) == Ago(s / Day, Days)
    ensures Week <= s < 28 * Day ==> Classify(s) == Ago(s / Week, Weeks)
    ensures 28 * Day <= s < 360 * Day ==> Classify(s) == Ago(s / Day / 30, Months)
    ensures 360 * Day <= s ==> Classify(s) == Ago(s / Day / 365, Years)
  {
    if s >= Minute {
      ChainedDivisions(s);
    }
  }

  /** The singular appears exactly for a count of one. */
  lemma RenderSingular(n: nat, u: Unit)
    ensures n == 1 <==> Render(Ago(n, u)) == "1 " + UnitName(u) + " ago"
  {
    if n != 1 {
      var s := Render(Ago(n, u));
      var d := NatToString(n);
      if |d| == 1 {
        assert d[0] != '1' by { NatToStringValue(n); assert d[..0] == []; }
        assert s[0] != '1';
      } else {
        assert s[1] != ' ';
      }
    }
  }

  /** Every label is one of the three families of the source's output. */
  lemma FormatFamilies(date: Option<int>, now: int)
    ensures var out := FormatRelativeTime(date, now);
      out == "Invalid date" || out == "just now"
      || exists n: nat, u: Unit :: out == Render(Ago(n, u))
  {
    if date.Some? {
      var l := Classify((now - date.value) / 1000);
      if l.Ago? {
        var n: nat := l.count;
        assert FormatRelativeTime(date, now) == Render(Ago(n, l.unit));
      }
    }
  }

  /** Anything from 28 up to 30 days ago reads "0 months ago". */
  lemma ZeroMonths(now: int, date: int)
    requires 28 * Day * 1000 <= now - date < 30 * Day * 1000
    ensures Classify((now - date) / 1000) == Ago(0, Months)
    ensures FormatRelativeTime(Some(date), now) == "0 months ago"
  {
    ClassifyBuckets((now - date) / 1000);
  }

  /** Anything from 360 up to 365 days ago reads "0 years ago". */
  lemma ZeroYears(now: int, date: int)
    requires 360 * Day * 1000 <= now - date < 365 * Day * 1000
    ensures Classify((now - date) / 1000) == Ago(0, Years)
    ensures FormatRelativeTime(Some(date), now) == "0 years ago"
  {
    ClassifyBuckets((now - date) / 1000);
  }

  /**
   * The bucket chain with the month bucket starting at 30 days and the
   * year bucket at 365 days, so that every count is at least one.
   */
  function ClassifyCorrected(seconds: int): (l: Label)
    ensures l != InvalidDate
    ensures l.Ago? ==> l.count >= 1
  {
    if seconds < 60 then JustNow
    else
      var minutes := seconds / 60;
      if minutes < 60 then Ago(minutes, Minutes)
      else
        var hours := minutes / 60;
        if hours < 24 then Ago(hours, Hours)
        else
          var days := hours / 24;
          if days < 7 then Ago(days, Days)
          else if days < 30 then Ago(days / 7, Weeks)
          else if days < 365 then Ago(days / 30, Months)
          else Ago(days / 365, Years)
  }

  /** The corrected chain changes only the labels whose count was zero. */
  lemma CorrectedAgrees(s: int)
    ensures Classify(s).Ago? && Classify(s).count >= 1 ==> ClassifyCorrected(s) == Classify(s)
    ensures Classify(s).Ago? && Classify(s).count == 0 ==>
      ClassifyCorrected(s).Ago? && ClassifyCorrected(s).count >= 1
  {
  }
}
