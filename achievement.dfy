/** The achievement record (`Achievement.swift`) and its fixed catalog. */
module AchievementModel {
  import opened Wrappers
  import opened Foundation
  import opened Text

  /** `AchievementRarity`: raw values "COMMON", "RARE", "EPIC", "LEGENDARY". */
  datatype Rarity = Common | Rare | Epic | Legendary

  datatype Achievement = Achievement(
    id: string,
    name: string,
    description: string,
    icon: string,
    rarity: Rarity,
    points: int,
    isUnlocked: bool,
    unlockedDate: Option<Date>,
    progress: Option<int>,
    maxProgress: Option<int>)

  /** `progressText`: "progress/maxProgress" when both are present. */
  function ProgressText(a: Achievement): (r: Option<string>)
    ensures r.None? <==> a.progress.None? || a.maxProgress.None?
  {
    if a.progress.None? || a.maxProgress.None? then None
    else Some(IntToString(a.progress.value) + "/" + IntToString(a.maxProgress.value))
  }

  /** Reads "P/M" back into (P, M). */
  function ProgressFromText(s: string): Option<(int, int)> {
    match ReadInt(s)
    case None => None
    case Some((p, rest)) =>
      if |rest| > 0 && rest[0] == '/' then
        match ReadInt(rest[1..])
        case None => None
        case Some((m, tail)) => if tail == [] then Some((p, m)) else None
      else None
  }

  /** The progress text shows exactly the two numbers it was made from. */
  lemma ProgressTextRoundTrip(a: Achievement)
    requires a.progress.Some? && a.maxProgress.Some?
    ensures ProgressText(a).Some?
    ensures ProgressFromText(ProgressText(a).value) == Some((a.progress.value, a.maxProgress.value))
  {
    var p, m := a.progress.value, a.maxProgress.value;
    var second := IntToString(m);
    var rest := "/" + second;
    assert ProgressText(a).value == IntToString(p) + rest;
    ReadIntToString(p, rest);
    assert rest[1..] == second;
    assert second + [] == second;
    ReadIntToString(m, []);
  }

  const FirstStep := "first_step"
  const WeekWarrior := "week_warrior"
  const Organizer := "organizer"
  const MonthMaster := "month_master"
  const StreakLegend := "streak_legend"
  const Categorizer := "categorizer"
  const Perfectionist := "perfectionist"
  const YearChampion := "year_champion"

  /** `Achievement.allAchievements` */
  function AllAchievements(): seq<Achievement> {
    [
      Achievement(FirstStep, "First Step", "Create your first counter", "🎯",
                  Common, 10, false, None, None, None),
      Achievement(WeekWarrior, "Week Warrior", "Track an event for 7 days", "🔥",
                  Common, 25, false, None, None, None),
      Achievement(Organizer, "Organizer", "Create 5 different counters", "⭐",
                  Rare, 50, false, None, Some(0), Some(5)),
      Achievement(MonthMaster, "Month Master", "Track an event for 30 days", "🏆",
                  Rare, 75, false, None, Some(0), Some(30)),
      Achievement(StreakLegend, "Streak Legend", "Maintain a 100 day streak", "⚡",
                  Epic, 150, false, None, Some(0), Some(100)),
      Achievement(Categorizer, "Categorizer", "Create 3 custom categories", "⭐",
                  Common, 30, false, None, Some(0), Some(3)),
      Achievement(Perfectionist, "Perfectionist", "Reach 100% on a counter", "✅",
                  Rare, 100, false, None, None, None),
      Achievement(YearChampion, "Year Champion", "Track a count for 365 days", "🏅",
                  Legendary, 500, false, None, Some(0), Some(365))
    ]
  }

  /** The sum of `points` over a list of achievements. */
  function PointsSum(s: seq<Achievement>): int
    decreases |s|
  {
    if s == [] then 0 else s[0].points + PointsSum(s[1..])
  }

  /** Achievements are told apart by their identifiers. */
  ghost predicate DistinctIds(s: seq<Achievement>) {
    forall i, j :: 0 <= i < j < |s| ==> s[i].id != s[j].id
  }

  /** The catalog holds eight entries with pairwise-distinct identifiers. */
  lemma CatalogIds()
    ensures |AllAchievements()| == 8
    ensures DistinctIds(AllAchievements())
  {
    var s := AllAchievements();
    var initials := "fwomscpy";
    assert s[0].id[0] == 'f' && s[1].id[0] == 'w' && s[2].id[0] == 'o' && s[3].id[0] == 'm';
    assert s[4].id[0] == 's' && s[5].id[0] == 'c' && s[6].id[0] == 'p' && s[7].id[0] == 'y';
    forall i, j | 0 <= i < j < |s| ensures s[i].id != s[j].id {
      assert s[i].id[0] == initials[i] && s[j].id[0] == initials[j];
    }
  }

  /** Every catalog entry starts locked, without an unlock date, and tracks progress only with a maximum. */
  lemma CatalogLocked()
    ensures forall i :: 0 <= i < |AllAchievements()| ==>
      var a := AllAchievements()[i];
      !a.isUnlocked && a.unlockedDate == None && (a.progress.Some? <==> a.maxProgress.Some?)
  {
  }

  /** The progress-tracked entries start at 0 of a positive maximum; the other three track nothing. */
  lemma CatalogProgress()
    ensures var s := AllAchievements();
      && s[2].id == Organizer && s[2].progress == Some(0) && s[2].maxProgress == Some(5)
      && s[3].id == MonthMaster && s[3].progress == Some(0) && s[3].maxProgress == Some(30)
      && s[4].id == StreakLegend && s[4].progress == Some(0) && s[4].maxProgress == Some(100)
      && s[5].id == Categorizer && s[5].progress == Some(0) && s[5].maxProgress == Some(3)
      && s[7].id == YearChampion && s[7].progress == Some(0) && s[7].maxProgress == Some(365)
      && s[0].id == FirstStep && s[0].progress == None && s[0].maxProgress == None
      && s[1].id == WeekWarrior && s[1].progress == None && s[1].maxProgress == None
      && s[6].id == Perfectionist && s[6].progress == None && s[6].maxProgress == None
  {
  }

  lemma CatalogPoints()
    ensures PointsSum(AllAchievements()) == 940
  {
    var s := AllAchievements();
    assert s[7..][1..] == [];
    assert PointsSum(s[7..]) == 500;
    assert s[6..][1..] == s[7..];
    assert s[5..][1..] == s[6..];
    assert s[4..][1..] == s[5..];
    assert s[3..][1..] == s[4..];
    assert s[2..][1..] == s[3..];
    assert s[1..][1..] == s[2..];
    assert s[0..] == s;
  }
}
