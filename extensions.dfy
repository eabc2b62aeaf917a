/** `TimeFormat.formatDays` (`Extensions.swift`): a day count spelled out in a unit, a month being 30 days. */
module Extensions {
  import opened Wrappers
  import opened Foundation
  import opened Text
  import opened CounterModel

  /** How many days one unit of the format stands for. */
  function UnitLength(f: TimeFormat): (n: nat)
    ensures n > 0
  {
    match f
    case Days => 1
    case Weeks => 7
    case Months => 30
  }

  /** `formatDays(_:)`: the magnitude of `days` as whole units, then any leftover days. */
  function FormatDays(f: TimeFormat, days: int): string {
    match f
    case Days => NatToString(Abs(days)) + " days"
    case Weeks =>
      var weeks := Abs(days) / 7;
      var remainingDays := Abs(days) % 7;
      if remainingDays == 0 then NatToString(weeks) + " weeks"
      else NatToString(weeks) + " weeks " + NatToString(remainingDays) + " days"
    case Months =>
      var months := Abs(days) / 30;
      var remainingDays := Abs(days) % 30;
      if remainingDays == 0 then NatToString(months) + " months"
      else NatToString(months) + " months " + NatToString(remainingDays) + " days"
  }

  /** What follows the number of whole units: " days", " weeks" or " months". */
  function UnitWord(f: TimeFormat): (w: string)
    ensures |w| > 1 && w[0] == ' '
  {
    match f
    case Days => " days"
    case Weeks => " weeks"
    case Months => " months"
  }

  /** The unit word followed by the space before the leftover days. */
  function UnitGap(f: TimeFormat): (g: string)
    ensures |g| == |UnitWord(f)| + 1 && g[0] == ' '
  {
    match f
    case Days => " days "
    case Weeks => " weeks "
    case Months => " months "
  }

  /** The unit word is a space and the format's `timeUnitLabel`, and the gap is that word and a space. */
  lemma UnitWordIsLabel(f: TimeFormat)
    ensures UnitWord(f) == " " + TimeUnitLabel(f)
    ensures UnitGap(f) == UnitWord(f) + " "
  {
  }

  /**
   * Reads "N <label>" or "N <label> R days" (0 < R < unit) back into the
   * number of days it stands for, N * unit + R.
   */
  function DaysFromText(f: TimeFormat, s: string): Option<nat> {
    match ReadNat(s)
    case None => None
    case Some((n, rest)) => UnitsFromText(f, n, rest)
  }

  /** The part after the number of whole units: the label, then possibly the leftover days. */
  function UnitsFromText(f: TimeFormat, n: nat, rest: string): Option<nat> {
    if rest == UnitWord(f) then Some(n * UnitLength(f))
    else if |rest| > |UnitGap(f)| && rest[..|UnitGap(f)|] == UnitGap(f) then LeftoverFromText(f, n, rest[|UnitGap(f)|..])
    else None
  }

  /** The leftover days "R days", with 0 < R < unit. */
  function LeftoverFromText(f: TimeFormat, n: nat, rest: string): Option<nat> {
    match ReadNat(rest)
    case None => None
    case Some((r, tail)) =>
      if tail == " days" && 0 < r < UnitLength(f) then Some(n * UnitLength(f) + r) else None
  }

  /** The words after the number are the format's `timeUnitLabel`. */
  lemma FormatDaysUsesUnitLabel(f: TimeFormat, days: int)
    requires Abs(days) % UnitLength(f) == 0
    ensures FormatDays(f, days) == NatToString(Abs(days) / UnitLength(f)) + " " + TimeUnitLabel(f)
  {
    SpelledOut(f, days);
    UnitWordIsLabel(f);
    Regroup(NatToString(Abs(days) / UnitLength(f)), " ", TimeUnitLabel(f));
  }

  /** The text determines the magnitude of the day count it was made from. */
  lemma FormatDaysRoundTrip(f: TimeFormat, days: int)
    ensures DaysFromText(f, FormatDays(f, days)) == Some(Abs(days))
  {
    var u := UnitLength(f);
    var n, r := Abs(days) / u, Abs(days) % u;
    SpelledOut(f, days);
    if r == 0 {
      WholeUnitsFromText(f, n);
      assert DaysFromText(f, FormatDays(f, days)) == Some(n * u + r);
    } else {
      UnitsAndDaysFromText(f, n, r);
      assert DaysFromText(f, FormatDays(f, days)) == Some(n * u + r);
    }
  }

  /** Every format spells "N <label>" or "N <label> R days" with N whole units and R leftover days. */
  lemma SpelledOut(f: TimeFormat, days: int)
    ensures var n, r := Abs(days) / UnitLength(f), Abs(days) % UnitLength(f);
      && n * UnitLength(f) + r == Abs(days)
      && (r == 0 ==> FormatDays(f, days) == NatToString(n) + UnitWord(f))
      && (r != 0 ==> FormatDays(f, days) == NatToString(n) + (UnitGap(f) + (NatToString(r) + " days")))
  {
    var n, r := Abs(days) / UnitLength(f), Abs(days) % UnitLength(f);
    if r != 0 {
      Regroup(NatToString(n), UnitGap(f), NatToString(r) + " days");
    }
  }

  /** Associativity of concatenation, stated separately so `SpelledOut` and `FormatDaysUsesUnitLabel` stay within the solver's resource limit. */
  lemma Regroup(a: string, b: string, c: string)
    ensures a + b + c == a + (b + c)
  {
  }

  lemma WholeUnitsFromText(f: TimeFormat, n: nat)
    ensures DaysFromText(f, NatToString(n) + UnitWord(f)) == Some(n * UnitLength(f))
  {
    ReadNatToString(n, UnitWord(f));
  }

  lemma UnitsAndDaysFromText(f: TimeFormat, n: nat, r: nat)
    requires 0 < r < UnitLength(f)
    ensures DaysFromText(f, NatToString(n) + (UnitGap(f) + (NatToString(r) + " days")))
      == Some(n * UnitLength(f) + r)
  {
    var gap := UnitGap(f);
    var second := NatToString(r) + " days";
    var rest := gap + second;
    ReadNatToString(r, " days");
    assert LeftoverFromText(f, n, second) == Some(n * UnitLength(f) + r);
    assert rest[..|gap|] == gap;
    assert rest[|gap|..] == second;
    assert UnitsFromText(f, n, rest) == Some(n * UnitLength(f) + r);
    ReadNatToString(n, rest);
  }

  /** Two day counts spell the same only when their magnitudes agree. */
  lemma FormatDaysInjective(f: TimeFormat, d1: int, d2: int)
    requires FormatDays(f, d1) == FormatDays(f, d2)
    ensures Abs(d1) == Abs(d2)
  {
    FormatDaysRoundTrip(f, d1);
    FormatDaysRoundTrip(f, d2);
  }

  /** Only the magnitude matters: the sign of the count is not shown. */
  lemma FormatDaysIgnoresSign(f: TimeFormat, days: int)
    ensures FormatDays(f, days) == FormatDays(f, -days)
  {
    assert Abs(days) == Abs(-days);
  }
}
