/**
 * The counter record (`Counter.swift`): a named event with a target date,
 * counted either down to it or up from it, and the time arithmetic derived
 * from it. The current date is the explicit parameter `now`; the calendar's
 * year/month/day and month/day decompositions are uninterpreted and come in
 * through a `Calendar` value.
 */
module CounterModel {
  import opened Wrappers
  import opened Foundation
  import opened Text

  /** `CounterType`: raw values "Count Until" and "Count Since". */
  datatype CounterType = CountUntil | CountSince

  /** `TimeFormat`: raw values "Days", "Weeks", "Months". */
  datatype TimeFormat = Days | Weeks | Months

  /** `TimeFormat.displayName`, which is its raw value. */
  function TimeFormatDisplayName(f: TimeFormat): string {
    match f
    case Days => "Days"
    case Weeks => "Weeks"
    case Months => "Months"
  }

  /** What `Calendar.dateComponents` yields: each requested component may be missing. */
  datatype DateComponents = DateComponents(year: Option<int>, month: Option<int>, day: Option<int>)

  /**
   * The calendar decompositions of the span between two dates, left
   * uninterpreted: `yearMonthDay` for `[.year, .month, .day]` and `monthDay`
   * for `[.month, .day]`.
   */
  datatype Calendar = Calendar(
    yearMonthDay: (Date, Date) -> DateComponents,
    monthDay: (Date, Date) -> DateComponents)

  datatype Counter = Counter(
    id: Uuid,
    name: string,
    counterType: CounterType,
    targetDate: Date,
    startDate: Date,
    categoryId: Option<Uuid>,
    emoji: string,
    color: string,
    note: Option<string>,
    showProgress: bool,
    isPinned: bool,
    timeFormat: Option<TimeFormat>,
    createdDate: Date)

  /**
   * `Counter.init`: `id` is the fresh `UUID()`, and `now` stands for the
   * `Date()` that the defaults of `startDate` and `createdDate` read.
   */
  function NewCounter(
    id: Uuid,
    now: Date,
    name: string,
    counterType: CounterType,
    targetDate: Date,
    startDate: Date := now,
    categoryId: Option<Uuid> := None,
    emoji: string := "📅",
    color: string := "#007AFF",
    note: Option<string> := None,
    showProgress: bool := true,
    isPinned: bool := false,
    timeFormat: Option<TimeFormat> := None,
    createdDate: Date := now): Counter
  {
    Counter(id, name, counterType, targetDate, startDate, categoryId, emoji, color,
            note, showProgress, isPinned, timeFormat, createdDate)
  }

  lemma CounterInitDefaults(id: Uuid, now: Date, name: string, t: CounterType, target: Date)
    ensures var c := NewCounter(id, now, name, t, target);
      && c.id == id && c.name == name && c.counterType == t && c.targetDate == target
      && c.startDate == now && c.categoryId == None && c.emoji == "📅" && c.color == "#007AFF"
      && c.note == None && c.showProgress && !c.isPinned && c.timeFormat == None
      && c.createdDate == now
  {
  }

  /** `dateComponents([.day], from:, to:).day`: whole days from `from` to `to`. */
  function DayComponent(from: Date, to: Date): Option<int> {
    Some(to - from)
  }

  /** `daysCount`: days left until the target (signed), or days since it (absolute). */
  function DaysCount(c: Counter, now: Date): (r: int)
    ensures c.counterType == CountUntil ==> r == c.targetDate - now
    ensures c.counterType == CountSince ==> r == Abs(c.targetDate - now) && r >= 0
  {
    var d := DayComponent(now, c.targetDate).GetOr(0);
    if c.counterType == CountUntil then d else Abs(d)
  }

  /** The start-to-target span the percentage is measured against. */
  function TotalDays(c: Counter): int {
    DayComponent(c.startDate, c.targetDate).GetOr(1)
  }

  /** The days elapsed from the start date to `now`. */
  function ElapsedDays(c: Counter, now: Date): int {
    DayComponent(c.startDate, now).GetOr(0)
  }

  /** `progressPercentage`, exactly: elapsed / total * 100, unclamped. */
  function ProgressPercentage(c: Counter, now: Date): (r: real)
    ensures c.counterType == CountSince ==> r == 0.0
    ensures c.targetDate - c.startDate <= 0 ==> r == 0.0
    ensures c.counterType == CountUntil && c.targetDate - c.startDate > 0 ==>
      r * (c.targetDate - c.startDate) as real == (now - c.startDate) as real * 100.0
  {
    if c.counterType != CountUntil then 0.0
    else
      var total := TotalDays(c);
      var elapsed := ElapsedDays(c, now);
      if total > 0 then elapsed as real / total as real * 100.0 else 0.0
  }

  /** With a positive span, the percentage reaches 100 exactly when the elapsed days reach the span. */
  lemma ProgressReachesHundred(c: Counter, now: Date)
    requires c.counterType == CountUntil && c.targetDate - c.startDate > 0
    ensures ProgressPercentage(c, now) >= 100.0 <==> now - c.startDate >= c.targetDate - c.startDate
  {
    var p := ProgressPercentage(c, now);
    var t := (c.targetDate - c.startDate) as real;
    var e := (now - c.startDate) as real;
    assert p * t == e * 100.0;
    if p >= 100.0 {
      assert p * t >= 100.0 * t;
    } else {
      assert p * t < 100.0 * t;
    }
  }

  /** With a positive span, the percentage is negative exactly when `now` is before the start date. */
  lemma ProgressNegativeBeforeStart(c: Counter, now: Date)
    requires c.counterType == CountUntil && c.targetDate - c.startDate > 0
    ensures ProgressPercentage(c, now) < 0.0 <==> now < c.startDate
  {
    var p := ProgressPercentage(c, now);
    var t := (c.targetDate - c.startDate) as real;
    assert p * t == (now - c.startDate) as real * 100.0;
    if p < 0.0 {
      assert p * t < 0.0;
    } else {
      assert p * t >= 0.0;
    }
  }

  /** The percentage is 0 on the start date and 100 on the target date. */
  lemma ProgressEndpoints(c: Counter)
    requires c.counterType == CountUntil && c.targetDate - c.startDate > 0
    ensures ProgressPercentage(c, c.startDate) == 0.0
    ensures ProgressPercentage(c, c.targetDate) == 100.0
  {
    var t := (c.targetDate - c.startDate) as real;
    assert ProgressPercentage(c, c.targetDate) * t == t * 100.0;
  }

  /** `anniversary`: years, months and days since the target date, for count-since counters only. */
  function Anniversary(c: Counter, now: Date, cal: Calendar): (r: Option<(int, int, int)>)
    ensures r.None? <==> c.counterType == CountUntil
    ensures r.Some? ==>
      var parts := cal.yearMonthDay(c.targetDate, now);
      r.value == (parts.year.GetOr(0), parts.month.GetOr(0), parts.day.GetOr(0))
  {
    if !c.counterType.CountSince? then None
    else
      var parts := cal.yearMonthDay(c.targetDate, now);
      Some((parts.year.GetOr(0), parts.month.GetOr(0), parts.day.GetOr(0)))
  }

  /** `formattedTime(using:)`: the magnitude of `daysCount` in the chosen unit. */
  function FormattedTime(c: Counter, format: TimeFormat, now: Date, cal: Calendar): string {
    var days := Abs(DaysCount(c, now));
    match format
    case Days => NatToString(days)
    case Weeks =>
      var weeks := days / 7;
      var remainingDays := days % 7;
      if remainingDays > 0 then NatToString(weeks) + "w " + NatToString(remainingDays) + "d"
      else NatToString(weeks)
    case Months =>
      var parts := cal.monthDay(now, c.targetDate);
      var months := Abs(parts.month.GetOr(0));
      var remainingDays := Abs(parts.day.GetOr(0));
      if remainingDays > 0 then NatToString(months) + "m " + NatToString(remainingDays) + "d"
      else NatToString(months)
  }

  /** `timeUnitLabel(for:)` */
  function TimeUnitLabel(format: TimeFormat): string {
    match format
    case Days => "days"
    case Weeks => "weeks"
    case Months => "months"
  }

  /** Each format has its own label. */
  lemma TimeUnitLabelInjective(f: TimeFormat, g: TimeFormat)
    ensures TimeUnitLabel(f) == TimeUnitLabel(g) ==> f == g
  {
    if TimeUnitLabel(f) == TimeUnitLabel(g) {
      assert TimeUnitLabel(f)[0] == TimeUnitLabel(g)[0];
    }
  }

  /**
   * Reads text of the form "N" or "N<unit> Md" (M > 0) back into the pair
   * (N, M), with M = 0 for the first form.
   */
  function CompactText(s: string, unit: char): Option<(nat, nat)> {
    match ReadNat(s)
    case None => None
    case Some((n, rest)) => CompactRest(n, rest, unit)
  }

  /** The part after the leading number: nothing, or "<unit> Md". */
  function CompactRest(n: nat, rest: string, unit: char): Option<(nat, nat)> {
    if rest == [] then Some((n, 0))
    else if |rest| >= 2 && rest[0] == unit && rest[1] == ' ' then
      match ReadNat(rest[2..])
      case None => None
      case Some((r, tail)) => if tail == "d" && r > 0 then Some((n, r)) else None
    else None
  }

  /** After the number, the separator "<unit> " and a positive numeral with the suffix "d" read as that numeral. */
  lemma CompactRestPair(n: nat, r: nat, unit: char, sep: string, b: string)
    requires sep == [unit, ' '] && r > 0 && ReadNat(b) == Some((r, "d"))
    ensures CompactRest(n, sep + b, unit) == Some((n, r))
  {
    assert (sep + b)[2..] == b;
  }

  /** The pair "N<unit> Md" is read back as (N, M); `sep` is the separator "<unit> ". */
  lemma CompactTextPair(n: nat, r: nat, unit: char, sep: string)
    requires sep == [unit, ' '] && r > 0 && !IsDigit(unit)
    ensures CompactText(NatToString(n) + sep + NatToString(r) + "d", unit) == Some((n, r))
  {
    var b := NatToString(r) + "d";
    ReadNatToString(r, "d");
    CompactRestPair(n, r, unit, sep, b);
    ReadNatToString(n, sep + b);
    PairRegroup(NatToString(n), sep, NatToString(r));
  }

  /** Regrouping of the rendered pair, stated separately so the round-trip proofs stay within the solver's resource limit. */
  lemma PairRegroup(a: string, sep: string, b: string)
    ensures a + sep + b + "d" == a + (sep + (b + "d"))
  {
  }

  lemma CompactTextSingle(n: nat, unit: char)
    ensures CompactText(NatToString(n), unit) == Some((n, 0))
  {
    assert NatToString(n) + [] == NatToString(n);
    ReadNatToString(n, []);
  }

  /** The days format shows the magnitude of `daysCount` and nothing else. */
  lemma FormattedDaysRoundTrip(c: Counter, now: Date, cal: Calendar)
    ensures ReadNat(FormattedTime(c, Days, now, cal)) == Some((Abs(DaysCount(c, now)), ""))
  {
    var d := Abs(DaysCount(c, now));
    assert NatToString(d) + "" == NatToString(d);
    ReadNatToString(d, "");
  }

  /** The weeks format shows whole weeks and leftover days that add back up to the magnitude of `daysCount`. */
  lemma FormattedWeeksRoundTrip(c: Counter, now: Date, cal: Calendar)
    ensures var p := CompactText(FormattedTime(c, Weeks, now, cal), 'w');
      && p.Some?
      && 7 * p.value.0 + p.value.1 == Abs(DaysCount(c, now))
      && p.value.1 < 7
  {
    var d := Abs(DaysCount(c, now));
    if d % 7 > 0 {
      CompactTextPair(d / 7, d % 7, 'w', "w ");
    } else {
      CompactTextSingle(d / 7, 'w');
    }
  }

  /** The months format shows the magnitudes of the calendar's month and day components, a zero day part omitted. */
  lemma FormattedMonthsRoundTrip(c: Counter, now: Date, cal: Calendar)
    ensures var parts := cal.monthDay(now, c.targetDate);
      CompactText(FormattedTime(c, Months, now, cal), 'm')
        == Some((Abs(parts.month.GetOr(0)), Abs(parts.day.GetOr(0))))
  {
    var parts := cal.monthDay(now, c.targetDate);
    var m, r := Abs(parts.month.GetOr(0)), Abs(parts.day.GetOr(0));
    if r > 0 {
      CompactTextPair(m, r, 'm', "m ");
    } else {
      CompactTextSingle(m, 'm');
    }
  }
}
