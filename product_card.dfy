/** The "updated ... ago" caption of a product card (`getRelativeTime` in `ProductCard.tsx`),
    taken as a function of the milliseconds elapsed since the product's update stamp. */
module ProductCard {

  /** Milliseconds in a day: 1000 * 60 * 60 * 24. */
  const MsPerDay: int := 86400000

  /** Whole days elapsed, rounded down (`Math.floor(diffInMs / MsPerDay)`); negative when
      the stamp lies in the future. */
  function DayCount(elapsedMs: int): (days: int)
    ensures days * MsPerDay <= elapsedMs < (days + 1) * MsPerDay
  {
    elapsedMs / MsPerDay
  }

  /** The age buckets of the caption. */
  datatype Age = Today | Yesterday | DaysAgo(days: int) | WeeksAgo(weeks: int) | MonthsAgo(months: int)

  /** The bucket of a day count: 0 and 1 by name, anything else below 7 (negative counts
      included) in days, below 30 in whole weeks, otherwise in whole months of 30 days. */
  function AgeOf(days: int): (a: Age)
    ensures a == Today <==> days == 0
    ensures a == Yesterday <==> days == 1
    ensures a.DaysAgo? <==> days < 7 && days != 0 && days != 1
    ensures a.DaysAgo? ==> a.days == days
    ensures a.WeeksAgo? <==> 7 <= days < 30
    ensures a.WeeksAgo? ==> 1 <= a.weeks <= 4 && 7 * a.weeks <= days < 7 * a.weeks + 7
    ensures a.MonthsAgo? <==> days >= 30
    ensures a.MonthsAgo? ==> a.months >= 1 && 30 * a.months <= days < 30 * a.months + 30
  {
    if days == 0 then Today
    else if days == 1 then Yesterday
    else if days < 7 then DaysAgo(days)
    else if days < 30 then WeeksAgo(days / 7)
    else MonthsAgo(days / 30)
  }

  /** The character of decimal digit `d`. */
  function DigitChar(d: int): (c: char)
    requires 0 <= d < 10
    ensures '0' <= c <= '9' && c as int - '0' as int == d
  {
    ('0' as int + d) as char
  }

  /** A string of decimal digits only. */
  predicate IsDigits(s: string) {
    forall i :: 0 <= i < |s| ==> '0' <= s[i] <= '9'
  }

  /** The number a string of decimal digits denotes. */
  function DigitsValue(s: string): nat
    requires IsDigits(s)
  {
    if s == [] then 0 else DigitsValue(s[..|s| - 1]) * 10 + (s[|s| - 1] as int - '0' as int)
  }

  /** Decimal notation of a natural number, without leading zeros. */
  function NatToString(n: nat): (s: string)
    ensures |s| >= 1 && IsDigits(s)
    ensures s[0] == '0' ==> n == 0 && s == "0"
    decreases n
  {
    if n < 10 then [DigitChar(n)] else NatToString(n / 10) + [DigitChar(n % 10)]
  }

  /** Decimal notation of an integer, as a template literal prints it. */
  function IntToString(i: int): (s: string)
    ensures i >= 0 ==> s == NatToString(i)
    ensures i < 0 ==> s == "-" + NatToString(-i)
  {
    if i < 0 then "-" + NatToString(-i) else NatToString(i)
  }

  /** Reading back the decimal notation gives the number. */
  lemma {:induction false} NatToStringRoundTrip(n: nat)
    ensures DigitsValue(NatToString(n)) == n
    decreases n
  {
    var s := NatToString(n);
    if n >= 10 {
      NatToStringRoundTrip(n / 10);
      assert s[..|s| - 1] == NatToString(n / 10);
    }
  }

  /** The caption of an age bucket. */
  function Label(a: Age): (s: string)
    ensures |s| >= 13 && s[..8] == "Updated "
  {
    match a
    case Today => "Updated today"
    case Yesterday => "Updated yesterday"
    case DaysAgo(d) => "Updated " + IntToString(d) + " days ago"
    case WeeksAgo(w) => "Updated " + IntToString(w) + " weeks ago"
    case MonthsAgo(m) => "Updated " + IntToString(m) + " months ago"
  }

  /** Distinct integers print differently: the sign and the digits give the number back. */
  lemma IntToStringInjective(i: int, j: int)
    requires IntToString(i) == IntToString(j)
    ensures i == j
  {
    var s := IntToString(i);
    assert NatToString(if i < 0 then -i else i)[0] != '-';
    assert NatToString(if j < 0 then -j else j)[0] != '-';
    if i < 0 {
      assert s[0] == '-';
      assert s[1..] == NatToString(-i);
      assert j < 0 && s[1..] == NatToString(-j);
      NatToStringRoundTrip(-i);
      NatToStringRoundTrip(-j);
    } else {
      assert j >= 0;
      NatToStringRoundTrip(i);
      NatToStringRoundTrip(j);
    }
  }

  /** How the caption tells its buckets apart: "today" and "yesterday" by length, the
      counted buckets by the ninth character from the end (' ', 'w', 'o'). */
  lemma LabelShape(a: Age)
    ensures a == Today ==> |Label(a)| == 13
    ensures a == Yesterday ==> |Label(a)| == 17
    ensures !a.Today? && !a.Yesterday? ==>
      var s := Label(a);
      && |s| >= 18
      && s[|s| - 9] == (if a.DaysAgo? then ' ' else if a.WeeksAgo? then 'w' else 'o')
  {
  }

  /** The counted number sits between "Updated " and the bucket's suffix. */
  lemma CaptionCount(x: string, y: string, suffix: string)
    requires "Updated " + x + suffix == "Updated " + y + suffix
    ensures x == y
  {
    var s := "Updated " + x + suffix;
    assert x == s[8..|s| - |suffix|];
  }

  /** Different buckets never share a caption, so the caption determines the bucket. */
  lemma LabelInjective(a: Age, b: Age)
    requires Label(a) == Label(b)
    ensures a == b
  {
    LabelShape(a);
    LabelShape(b);
    match a
    case Today =>
    case Yesterday =>
    case DaysAgo(d) =>
      CaptionCount(IntToString(d), IntToString(b.days), " days ago");
      IntToStringInjective(d, b.days);
    case WeeksAgo(w) =>
      CaptionCount(IntToString(w), IntToString(b.weeks), " weeks ago");
      IntToStringInjective(w, b.weeks);
    case MonthsAgo(m) =>
      CaptionCount(IntToString(m), IntToString(b.months), " months ago");
      IntToStringInjective(m, b.months);
  }

  /** The caption for a stamp `elapsedMs` milliseconds old. */
  function RelativeTime(elapsedMs: int): (s: string)
    ensures var days := DayCount(elapsedMs);
      && (days == 0 ==> s == "Updated today")
      && (days == 1 ==> s == "Updated yesterday")
      && (days < 7 && days != 0 && days != 1 ==> s == "Updated " + IntToString(days) + " days ago")
      && (7 <= days < 30 ==> 1 <= days / 7 <= 4 && s == "Updated " + IntToString(days / 7) + " weeks ago")
      && (days >= 30 ==> days / 30 >= 1 && s == "Updated " + IntToString(days / 30) + " months ago")
  {
    Label(AgeOf(DayCount(elapsedMs)))
  }

  /** A stamp less than a day old reads "Updated today", one between one and two days old
      "Updated yesterday". */
  lemma FirstTwoDays(elapsedMs: int)
    ensures 0 <= elapsedMs < MsPerDay ==> RelativeTime(elapsedMs) == "Updated today"
    ensures MsPerDay <= elapsedMs < 2 * MsPerDay ==> RelativeTime(elapsedMs) == "Updated yesterday"
  {
  }
}
