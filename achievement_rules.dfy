/**
 * The achievement rules of `AchievementManager.swift`, as values. Each
 * `check…` step decides on one action from the counters and categories;
 * `unlockAchievement` and `updateProgress` apply it to the first entry with
 * the action's identifier. `CheckAll` is what `checkAchievements` does to the
 * list, and the lemmas say what a check can and cannot change.
 */
module AchievementRules {
  import opened Wrappers
  import opened Foundation
  import opened Seqs
  import opened CounterModel
  import opened CategoryModel
  import opened AchievementModel

  /** What one `check…` step asks for: nothing, `unlockAchievement(id:)`, or `updateProgress(id:progress:)`. */
  datatype Action = Skip | Unlock(id: string) | SetProgress(id: string, value: int)

  /** The `firstIndex(where:)` predicate both helpers search with. */
  function HasId(id: string): Achievement -> bool {
    (a: Achievement) => a.id == id
  }

  /** The entry an action lands on: the first one with its identifier. */
  function Target(achs: seq<Achievement>, x: Action): (r: Option<nat>)
    ensures r.Some? ==> !x.Skip? && r.value < |achs| && achs[r.value].id == x.id
  {
    if x.Skip? then None else FirstIndex(achs, HasId(x.id))
  }

  /** `unlockAchievement` on the entry it found: only a locked entry changes, and it is stamped with `now`. */
  function Unlocked(a: Achievement, now: Date): Achievement {
    if a.isUnlocked then a else a.(isUnlocked := true, unlockedDate := Some(now))
  }

  /** What an action does to the entry it lands on. */
  function Effect(a: Achievement, x: Action, now: Date): Achievement {
    match x
    case Skip => a
    case Unlock(_) => Unlocked(a, now)
    case SetProgress(_, p) =>
      var b := a.(progress := Some(p));
      if b.maxProgress.Some? && p >= b.maxProgress.value then Unlocked(b, now) else b
  }

  /** The fields no check touches: everything except the unlock state and the progress. */
  function Fixed(a: Achievement): Achievement {
    a.(isUnlocked := false, unlockedDate := None, progress := None)
  }

  /**
   * `b` can follow from `a` by checks run at `now`: the fixed fields agree,
   * an unlocked entry keeps its unlock and its date, a newly unlocked one is
   * dated `now`, and a locked one keeps its date.
   */
  predicate Follows(a: Achievement, b: Achievement, now: Date) {
    && Fixed(b) == Fixed(a)
    && (a.isUnlocked ==> b.isUnlocked && b.unlockedDate == a.unlockedDate)
    && (!a.isUnlocked && b.isUnlocked ==> b.unlockedDate == Some(now))
    && (!b.isUnlocked ==> b.unlockedDate == a.unlockedDate)
  }

  /** `Follows`, entry by entry. */
  predicate FollowsAll(A: seq<Achievement>, B: seq<Achievement>, now: Date) {
    |A| == |B| && forall i :: 0 <= i < |A| ==> Follows(A[i], B[i], now)
  }

  /** An action changes only the unlock state and the progress, and never locks an entry again. */
  lemma EffectFollows(a: Achievement, x: Action, now: Date)
    ensures Follows(a, Effect(a, x, now), now)
  {
  }

  /** Applying the same action twice is applying it once. */
  lemma EffectIdempotent(a: Achievement, x: Action, now: Date)
    ensures Effect(Effect(a, x, now), x, now) == Effect(a, x, now)
  {
  }

  /** One `unlockAchievement` or `updateProgress` call on the whole list. */
  function Apply(achs: seq<Achievement>, x: Action, now: Date): (r: seq<Achievement>)
    ensures |r| == |achs|
  {
    match Target(achs, x)
    case None => achs
    case Some(i) => achs[i := Effect(achs[i], x, now)]
  }

  /** An action changes at most the entry it lands on, and that one only as a check may. */
  lemma ApplyFollows(achs: seq<Achievement>, x: Action, now: Date)
    ensures FollowsAll(achs, Apply(achs, x, now), now)
    ensures forall i :: 0 <= i < |achs| && Target(achs, x) != Some(i) ==> Apply(achs, x, now)[i] == achs[i]
  {
    match Target(achs, x)
    case None =>
    case Some(i) => EffectFollows(achs[i], x, now);
  }

  /** The actions applied one after another, in order. */
  function ApplyAll(achs: seq<Achievement>, xs: seq<Action>, now: Date): (r: seq<Achievement>)
    ensures FollowsAll(achs, r, now)
    decreases |xs|
  {
    if xs == [] then achs
    else
      ApplyFollows(achs, xs[0], now);
      ApplyAll(Apply(achs, xs[0], now), xs[1..], now)
  }

  /** `checkFirstStep` */
  function FirstStepRule(counters: seq<Counter>): Action {
    if |counters| >= 1 then Unlock(FirstStep) else Skip
  }

  /** `checkOrganizer` */
  function OrganizerRule(counters: seq<Counter>): Action {
    SetProgress(Organizer, Min(|counters|, 5))
  }

  /** `checkWeekWarrior` */
  function WeekWarriorRule(counters: seq<Counter>, now: Date): Action {
    if exists c :: c in counters && c.counterType == CountSince && DaysCount(c, now) >= 7
    then Unlock(WeekWarrior) else Skip
  }

  /** The `daysCount` of every count-since counter, in order. */
  function SinceDays(counters: seq<Counter>, now: Date): seq<int> {
    Map(Filter(counters, (c: Counter) => c.counterType == CountSince), (c: Counter) => DaysCount(c, now))
  }

  /** The days `checkMonthMaster` and `checkStreakLegend` take the maximum of are those of the count-since counters. */
  lemma SinceDaysMembers(counters: seq<Counter>, now: Date)
    ensures forall d :: d in SinceDays(counters, now) <==>
      exists c :: c in counters && c.counterType == CountSince && DaysCount(c, now) == d
  {
    var since := Filter(counters, (c: Counter) => c.counterType == CountSince);
    FilterMembers(counters, (c: Counter) => c.counterType == CountSince);
    var r := SinceDays(counters, now);
    forall c | c in counters && c.counterType == CountSince ensures DaysCount(c, now) in r {
      var i :| 0 <= i < |since| && since[i] == c;
      assert r[i] == DaysCount(c, now);
    }
    forall d | d in r ensures exists c :: c in counters && c.counterType == CountSince && DaysCount(c, now) == d {
      var i :| 0 <= i < |r| && r[i] == d;
      assert since[i] in since;
    }
  }

  /** The `daysCount` of every counter, in order. */
  function AllDays(counters: seq<Counter>, now: Date): seq<int> {
    Map(counters, (c: Counter) => DaysCount(c, now))
  }

  /** The days `checkYearChampion` takes the maximum of are those of all the counters. */
  lemma AllDaysMembers(counters: seq<Counter>, now: Date)
    ensures forall d :: d in AllDays(counters, now) <==> exists c :: c in counters && DaysCount(c, now) == d
  {
    var r := AllDays(counters, now);
    forall c | c in counters ensures DaysCount(c, now) in r {
      var i :| 0 <= i < |counters| && counters[i] == c;
      assert r[i] == DaysCount(c, now);
    }
  }

  /** `if let maxDays = days.max() { updateProgress(id:, progress: min(maxDays, cap)) }` */
  function CappedMax(id: string, days: seq<int>, cap: int): (r: Action)
    ensures r.Skip? <==> days == []
    ensures r.SetProgress? ==> r.id == id && r.value <= cap
    ensures r.Skip? || r.SetProgress?
  {
    match MaxOf(days)
    case None => Skip
    case Some(m) => SetProgress(id, Min(m, cap))
  }

  /** `checkMonthMaster` */
  function MonthMasterRule(counters: seq<Counter>, now: Date): Action {
    CappedMax(MonthMaster, SinceDays(counters, now), 30)
  }

  /** `checkStreakLegend` */
  function StreakLegendRule(counters: seq<Counter>, now: Date): Action {
    CappedMax(StreakLegend, SinceDays(counters, now), 100)
  }

  /** The categories whose names are not the name of a built-in category. */
  function CustomCategories(categories: seq<Category>): seq<Category> {
    Filter(categories, (k: Category) => !IsDefaultName(k.name))
  }

  /**
   * The custom categories are those not named like a built-in one, and
   * adding a category adds one to their number exactly when its name is not
   * a built-in name.
   */
  lemma CustomCategoriesAppend(categories: seq<Category>, k: Category)
    ensures forall c :: c in CustomCategories(categories) <==> c in categories && !IsDefaultName(c.name)
    ensures |CustomCategories(categories + [k])| == |CustomCategories(categories)| + if IsDefaultName(k.name) then 0 else 1
  {
    FilterMembers(categories, (c: Category) => !IsDefaultName(c.name));
    FilterAppend(categories, k, (c: Category) => !IsDefaultName(c.name));
  }

  /** The built-in categories alone count as no custom category. */
  lemma CustomCategoriesOfDefaults()
    ensures CustomCategories(DefaultCategories()) == []
  {
    var d := DefaultCategories();
    assert forall i :: 0 <= i < |d| ==> IsDefaultName(d[i].name) by {
      forall i | 0 <= i < |d| ensures IsDefaultName(d[i].name) {
        assert d[i] in d;
      }
    }
  }

  /** `checkCategorizer` */
  function CategorizerRule(categories: seq<Category>): Action {
    SetProgress(Categorizer, Min(|CustomCategories(categories)|, 3))
  }

  /** `checkPerfectionist` */
  function PerfectionistRule(counters: seq<Counter>, now: Date): Action {
    if exists c :: c in counters && c.counterType == CountUntil && ProgressPercentage(c, now) >= 100.0
    then Unlock(Perfectionist) else Skip
  }

  /** `checkYearChampion` */
  function YearChampionRule(counters: seq<Counter>, now: Date): Action {
    CappedMax(YearChampion, AllDays(counters, now), 365)
  }

  /** The identifiers of the eight steps of `checkAchievements`, in the order it runs them. */
  function RuleIds(): seq<string> {
    [FirstStep, Organizer, WeekWarrior, MonthMaster, StreakLegend, Categorizer, Perfectionist, YearChampion]
  }

  /** The steps of `checkAchievements`, in its order. */
  function Rules(counters: seq<Counter>, categories: seq<Category>, now: Date): (r: seq<Action>)
    ensures StepShaped(r, RuleIds())
  {
    [ FirstStepRule(counters), OrganizerRule(counters), WeekWarriorRule(counters, now),
      MonthMasterRule(counters, now), StreakLegendRule(counters, now), CategorizerRule(categories),
      PerfectionistRule(counters, now), YearChampionRule(counters, now) ]
  }

  /** `checkAchievements()` on the list of achievements. */
  function CheckAll(achs: seq<Achievement>, counters: seq<Counter>, categories: seq<Category>, now: Date): (r: seq<Achievement>)
    ensures FollowsAll(achs, r, now)
  {
    ApplyAll(achs, Rules(counters, categories, now), now)
  }

  /** The steps answer to pairwise-distinct identifiers. */
  lemma RuleIdsDistinct()
    ensures |RuleIds()| == 8 && DistinctStrings(RuleIds())
  {
    var ids := RuleIds();
    var initials := "fowmscpy";
    assert ids[0][0] == 'f' && ids[1][0] == 'o' && ids[2][0] == 'w' && ids[3][0] == 'm';
    assert ids[4][0] == 's' && ids[5][0] == 'c' && ids[6][0] == 'p' && ids[7][0] == 'y';
    forall k, m | 0 <= k < |ids| && 0 <= m < |ids| && k != m ensures ids[k] != ids[m] {
      assert ids[k][0] == initials[k] && ids[m][0] == initials[m];
    }
  }

  /** What the actions do to the entry at index `j` of `A`: every action landing on `j` applies its effect, in order. */
  function EntryAfter(a: Achievement, j: nat, A: seq<Achievement>, xs: seq<Action>, now: Date): Achievement
    decreases |xs|
  {
    if xs == [] then a
    else EntryAfter(if Target(A, xs[0]) == Some(j) then Effect(a, xs[0], now) else a, j, A, xs[1..], now)
  }

  /** Lists whose identifiers agree index by index. */
  predicate SameIds(A: seq<Achievement>, B: seq<Achievement>) {
    |A| == |B| && forall i :: 0 <= i < |A| ==> A[i].id == B[i].id
  }

  /** An action lands on the same index of lists with the same identifiers. */
  lemma TargetSameIds(A: seq<Achievement>, B: seq<Achievement>, x: Action)
    requires SameIds(A, B)
    ensures Target(A, x) == Target(B, x)
  {
    if !x.Skip? {
      FirstIndexAgree(A, B, HasId(x.id));
    }
  }

  lemma {:induction false} EntryAfterSameIds(a: Achievement, j: nat, A: seq<Achievement>, B: seq<Achievement>, xs: seq<Action>, now: Date)
    requires SameIds(A, B)
    ensures EntryAfter(a, j, A, xs, now) == EntryAfter(a, j, B, xs, now)
    decreases |xs|
  {
    if xs != [] {
      TargetSameIds(A, B, xs[0]);
      var b := if Target(A, xs[0]) == Some(j) then Effect(a, xs[0], now) else a;
      EntryAfterSameIds(b, j, A, B, xs[1..], now);
    }
  }

  /** Running the actions one after another acts on each entry separately, as `EntryAfter` says. */
  lemma {:induction false} ApplyAllAt(A: seq<Achievement>, xs: seq<Action>, now: Date, j: nat)
    requires j < |A|
    ensures ApplyAll(A, xs, now)[j] == EntryAfter(A[j], j, A, xs, now)
    decreases |xs|
  {
    if xs != [] {
      var B := Apply(A, xs[0], now);
      ApplyFollows(A, xs[0], now);
      ApplyAllAt(B, xs[1..], now, j);
      EntryAfterSameIds(B[j], j, B, A, xs[1..], now);
    }
  }

  /** An entry no action lands on is left as it is. */
  lemma {:induction false} EntryAfterUntouched(a: Achievement, j: nat, A: seq<Achievement>, xs: seq<Action>, now: Date)
    requires forall m :: 0 <= m < |xs| ==> Target(A, xs[m]) != Some(j)
    ensures EntryAfter(a, j, A, xs, now) == a
    decreases |xs|
  {
    if xs != [] {
      EntryAfterUntouched(a, j, A, xs[1..], now);
    }
  }

  /** An entry exactly one action lands on ends as that action's effect. */
  lemma {:induction false} EntryAfterSingle(a: Achievement, j: nat, A: seq<Achievement>, xs: seq<Action>, now: Date, k: nat)
    requires k < |xs| && Target(A, xs[k]) == Some(j)
    requires forall m :: 0 <= m < |xs| && m != k ==> Target(A, xs[m]) != Some(j)
    ensures EntryAfter(a, j, A, xs, now) == Effect(a, xs[k], now)
    decreases |xs|
  {
    if k == 0 {
      EntryAfterUntouched(Effect(a, xs[0], now), j, A, xs[1..], now);
    } else {
      EntryAfterSingle(a, j, A, xs[1..], now, k - 1);
    }
  }

  /** Pairwise-distinct identifiers. */
  ghost predicate DistinctStrings(ids: seq<string>) {
    forall k, m :: 0 <= k < |ids| && 0 <= m < |ids| && k != m ==> ids[k] != ids[m]
  }

  /** Actions shaped like steps answering to `ids`: each is nothing or aimed at its step's identifier. */
  predicate StepShaped(xs: seq<Action>, ids: seq<string>) {
    |xs| == |ids| && forall k :: 0 <= k < |xs| ==> xs[k].Skip? || xs[k].id == ids[k]
  }

  /** Two different steps never land on the same entry. */
  lemma {:induction false} StepsLandApart(A: seq<Achievement>, xs: seq<Action>, ids: seq<string>, j: nat)
    requires StepShaped(xs, ids) && DistinctStrings(ids)
    ensures forall k, m :: 0 <= k < |xs| && 0 <= m < |xs| && k != m ==>
      Target(A, xs[k]) != Some(j) || Target(A, xs[m]) != Some(j)
  {
  }

  lemma {:induction false} StepShapedAt(A: seq<Achievement>, xs: seq<Action>, ids: seq<string>, now: Date, k: nat, j: nat)
    requires StepShaped(xs, ids) && DistinctStrings(ids)
    requires k < |xs| && FirstIndex(A, HasId(ids[k])) == Some(j)
    ensures ApplyAll(A, xs, now)[j] == Effect(A[j], xs[k], now)
  {
    ApplyAllAt(A, xs, now, j);
    StepsLandApart(A, xs, ids, j);
    if xs[k].Skip? {
      EntryAfterUntouched(A[j], j, A, xs, now);
    } else {
      EntryAfterSingle(A[j], j, A, xs, now, k);
    }
  }

  /**
   * The entry of step `k` — the first with that step's identifier — ends a
   * check as that step's effect; a step that decides to do nothing leaves it
   * as it was.
   */
  lemma {:induction false} CheckAllAt(A: seq<Achievement>, counters: seq<Counter>, categories: seq<Category>, now: Date, k: nat, j: nat)
    requires k < 8 && FirstIndex(A, HasId(RuleIds()[k])) == Some(j)
    ensures CheckAll(A, counters, categories, now)[j] == Effect(A[j], Rules(counters, categories, now)[k], now)
  {
    RuleIdsDistinct();
    StepShapedAt(A, Rules(counters, categories, now), RuleIds(), now, k, j);
  }

  /** An entry whose identifier is not a step's, or that is not the first with it, is not touched by a check. */
  lemma {:induction false} CheckAllElsewhere(A: seq<Achievement>, counters: seq<Counter>, categories: seq<Category>, now: Date, j: nat)
    requires j < |A|
    requires forall k :: 0 <= k < 8 ==> FirstIndex(A, HasId(RuleIds()[k])) != Some(j)
    ensures CheckAll(A, counters, categories, now)[j] == A[j]
  {
    var xs := Rules(counters, categories, now);
    ApplyAllAt(A, xs, now, j);
    EntryAfterUntouched(A[j], j, A, xs, now);
  }

  /** Running `checkAchievements` a second time, with nothing else changed, changes nothing. */
  lemma {:induction false} CheckAllIdempotent(A: seq<Achievement>, counters: seq<Counter>, categories: seq<Category>, now: Date)
    ensures CheckAll(CheckAll(A, counters, categories, now), counters, categories, now)
      == CheckAll(A, counters, categories, now)
  {
    var xs := Rules(counters, categories, now);
    RuleIdsDistinct();
    var B := CheckAll(A, counters, categories, now);
    var C := CheckAll(B, counters, categories, now);
    forall j | 0 <= j < |A| ensures C[j] == B[j] {
      ApplyAllAt(A, xs, now, j);
      ApplyAllAt(B, xs, now, j);
      EntryAfterSameIds(B[j], j, B, A, xs, now);
      StepsLandApart(A, xs, RuleIds(), j);
      EntryAfterTwice(A[j], j, A, xs, now);
    }
  }

  /** The effect `EntryAfter` computes is idempotent when at most one action lands on the entry. */
  lemma {:induction false} EntryAfterTwice(a: Achievement, j: nat, A: seq<Achievement>, xs: seq<Action>, now: Date)
    requires forall k, m :: 0 <= k < |xs| && 0 <= m < |xs| && k != m ==> Target(A, xs[k]) != Some(j) || Target(A, xs[m]) != Some(j)
    ensures EntryAfter(EntryAfter(a, j, A, xs, now), j, A, xs, now) == EntryAfter(a, j, A, xs, now)
  {
    if k :| 0 <= k < |xs| && Target(A, xs[k]) == Some(j) {
      EntryAfterSingle(a, j, A, xs, now, k);
      EntryAfterSingle(Effect(a, xs[k], now), j, A, xs, now, k);
      EffectIdempotent(a, xs[k], now);
    } else {
      EntryAfterUntouched(a, j, A, xs, now);
    }
  }

  /** `p` is the largest of the `days`, each first capped at `cap`. */
  ghost predicate CappedMaxOf(p: int, days: seq<int>, cap: int) {
    (forall d :: d in days ==> Min(d, cap) <= p) && (exists d :: d in days && Min(d, cap) == p)
  }

  /** A count-since counter's `daysCount` is never negative, so neither is any of the days the two streak rules take. */
  lemma SinceDaysNonNegative(counters: seq<Counter>, now: Date)
    ensures forall d :: d in SinceDays(counters, now) ==> d >= 0
  {
    SinceDaysMembers(counters, now);
  }

  /** The capped maximum of non-negative days lies between 0 and the cap. */
  lemma CappedMaxInRange(p: int, days: seq<int>, cap: int)
    requires CappedMaxOf(p, days, cap) && cap >= 0
    requires forall d :: d in days ==> d >= 0
    ensures 0 <= p <= cap
  {
    var d :| d in days && Min(d, cap) == p;
  }

  /** `updateProgress` unlocks an entry exactly when the new progress reaches a maximum it has. */
  ghost predicate ProgressSet(a: Achievement, b: Achievement, p: int) {
    && b.progress == Some(p)
    && (b.isUnlocked <==> a.isUnlocked || (a.maxProgress.Some? && p >= a.maxProgress.value))
  }

  lemma SetProgressEffect(a: Achievement, id: string, p: int, now: Date)
    ensures ProgressSet(a, Effect(a, SetProgress(id, p), now), p)
  {
  }

  lemma CappedMaxEffect(a: Achievement, id: string, days: seq<int>, cap: int, now: Date)
    ensures var b := Effect(a, CappedMax(id, days, cap), now);
      && (days == [] ==> b == a)
      && (days != [] ==> b.progress.Some? && ProgressSet(a, b, b.progress.value) && CappedMaxOf(b.progress.value, days, cap))
  {
  }

  /** The steps of `checkAchievements`, one by one. */
  lemma RulesAre(counters: seq<Counter>, categories: seq<Category>, now: Date)
    ensures var xs := Rules(counters, categories, now);
      && xs[0] == FirstStepRule(counters) && xs[1] == OrganizerRule(counters)
      && xs[2] == WeekWarriorRule(counters, now) && xs[3] == MonthMasterRule(counters, now)
      && xs[4] == StreakLegendRule(counters, now) && xs[5] == CategorizerRule(categories)
      && xs[6] == PerfectionistRule(counters, now) && xs[7] == YearChampionRule(counters, now)
  {
  }

  /** After a check, "first_step" is unlocked exactly when it was or there is a counter. */
  lemma FirstStepAfterCheck(A: seq<Achievement>, counters: seq<Counter>, categories: seq<Category>, now: Date, j: nat)
    requires FirstIndex(A, HasId(FirstStep)) == Some(j)
    ensures CheckAll(A, counters, categories, now)[j].isUnlocked <==> A[j].isUnlocked || |counters| >= 1
  {
    CheckAllAt(A, counters, categories, now, 0, j);
    RulesAre(counters, categories, now);
  }

  /** After a check, "organizer" shows the number of counters, capped at 5. */
  lemma OrganizerAfterCheck(A: seq<Achievement>, counters: seq<Counter>, categories: seq<Category>, now: Date, j: nat)
    requires FirstIndex(A, HasId(Organizer)) == Some(j)
    ensures ProgressSet(A[j], CheckAll(A, counters, categories, now)[j], Min(|counters|, 5))
  {
    CheckAllAt(A, counters, categories, now, 1, j);
    RulesAre(counters, categories, now);
    SetProgressEffect(A[j], Organizer, Min(|counters|, 5), now);
  }

  /** After a check, "week_warrior" is unlocked exactly when it was or a count-since counter has run 7 days. */
  lemma WeekWarriorAfterCheck(A: seq<Achievement>, counters: seq<Counter>, categories: seq<Category>, now: Date, j: nat)
    requires FirstIndex(A, HasId(WeekWarrior)) == Some(j)
    ensures CheckAll(A, counters, categories, now)[j].isUnlocked <==>
      A[j].isUnlocked || exists c :: c in counters && c.counterType == CountSince && DaysCount(c, now) >= 7
  {
    CheckAllAt(A, counters, categories, now, 2, j);
    RulesAre(counters, categories, now);
  }

  /** After a check, "month_master" shows the longest count-since run capped at 30; with no such counter it is untouched. */
  lemma MonthMasterAfterCheck(A: seq<Achievement>, counters: seq<Counter>, categories: seq<Category>, now: Date, j: nat)
    requires FirstIndex(A, HasId(MonthMaster)) == Some(j)
    ensures var r := CheckAll(A, counters, categories, now);
      && (SinceDays(counters, now) == [] ==> r[j] == A[j])
      && (SinceDays(counters, now) != [] ==>
            r[j].progress.Some? && ProgressSet(A[j], r[j], r[j].progress.value)
            && CappedMaxOf(r[j].progress.value, SinceDays(counters, now), 30)
            && 0 <= r[j].progress.value <= 30)
  {
    CheckAllAt(A, counters, categories, now, 3, j);
    RulesAre(counters, categories, now);
    CappedMaxEffect(A[j], MonthMaster, SinceDays(counters, now), 30, now);
    if SinceDays(counters, now) != [] {
      var p := CheckAll(A, counters, categories, now)[j].progress.value;
      SinceDaysNonNegative(counters, now);
      CappedMaxInRange(p, SinceDays(counters, now), 30);
    }
  }

  /** After a check, "streak_legend" shows the longest count-since run capped at 100; with no such counter it is untouched. */
  lemma StreakLegendAfterCheck(A: seq<Achievement>, counters: seq<Counter>, categories: seq<Category>, now: Date, j: nat)
    requires FirstIndex(A, HasId(StreakLegend)) == Some(j)
    ensures var r := CheckAll(A, counters, categories, now);
      && (SinceDays(counters, now) == [] ==> r[j] == A[j])
      && (SinceDays(counters, now) != [] ==>
            r[j].progress.Some? && ProgressSet(A[j], r[j], r[j].progress.value)
            && CappedMaxOf(r[j].progress.value, SinceDays(counters, now), 100)
            && 0 <= r[j].progress.value <= 100)
  {
    CheckAllAt(A, counters, categories, now, 4, j);
    RulesAre(counters, categories, now);
    CappedMaxEffect(A[j], StreakLegend, SinceDays(counters, now), 100, now);
    if SinceDays(counters, now) != [] {
      var p := CheckAll(A, counters, categories, now)[j].progress.value;
      SinceDaysNonNegative(counters, now);
      CappedMaxInRange(p, SinceDays(counters, now), 100);
    }
  }

  /** After a check, "categorizer" shows the number of categories not named like a built-in one, capped at 3. */
  lemma CategorizerAfterCheck(A: seq<Achievement>, counters: seq<Counter>, categories: seq<Category>, now: Date, j: nat)
    requires FirstIndex(A, HasId(Categorizer)) == Some(j)
    ensures ProgressSet(A[j], CheckAll(A, counters, categories, now)[j], Min(|CustomCategories(categories)|, 3))
  {
    CheckAllAt(A, counters, categories, now, 5, j);
    RulesAre(counters, categories, now);
    SetProgressEffect(A[j], Categorizer, Min(|CustomCategories(categories)|, 3), now);
  }

  /**
   * After a check, "perfectionist" is unlocked exactly when it was or some
   * count-until counter with a start before its target has reached the target.
   */
  lemma PerfectionistAfterCheck(A: seq<Achievement>, counters: seq<Counter>, categories: seq<Category>, now: Date, j: nat)
    requires FirstIndex(A, HasId(Perfectionist)) == Some(j)
    ensures CheckAll(A, counters, categories, now)[j].isUnlocked <==>
      A[j].isUnlocked ||
      exists c :: c in counters && c.counterType == CountUntil && c.startDate < c.targetDate <= now
  {
    CheckAllAt(A, counters, categories, now, 6, j);
    RulesAre(counters, categories, now);
    forall c | c in counters && c.counterType == CountUntil
      ensures ProgressPercentage(c, now) >= 100.0 <==> c.startDate < c.targetDate <= now
    {
      if c.targetDate - c.startDate > 0 {
        ProgressReachesHundred(c, now);
      }
    }
  }

  /** After a check, "year_champion" shows the largest `daysCount` of any counter capped at 365; with no counter it is untouched. */
  lemma YearChampionAfterCheck(A: seq<Achievement>, counters: seq<Counter>, categories: seq<Category>, now: Date, j: nat)
    requires FirstIndex(A, HasId(YearChampion)) == Some(j)
    ensures var r := CheckAll(A, counters, categories, now);
      && (counters == [] ==> r[j] == A[j])
      && (counters != [] ==>
            r[j].progress.Some? && ProgressSet(A[j], r[j], r[j].progress.value)
            && CappedMaxOf(r[j].progress.value, AllDays(counters, now), 365))
  {
    CheckAllAt(A, counters, categories, now, 7, j);
    RulesAre(counters, categories, now);
    CappedMaxEffect(A[j], YearChampion, AllDays(counters, now), 365, now);
  }

  /**
   * "year_champion" takes count-until counters into account, whose
   * `daysCount` is negative once their target has passed: its progress can go
   * below zero.
   */
  lemma YearChampionCanGoNegative(A: seq<Achievement>, c: Counter, categories: seq<Category>, now: Date, j: nat)
    requires FirstIndex(A, HasId(YearChampion)) == Some(j)
    requires c.counterType == CountUntil && c.targetDate == now - 3
    ensures CheckAll(A, [c], categories, now)[j].progress == Some(-3)
  {
    CheckAllAt(A, [c], categories, now, 7, j);
    RulesAre([c], categories, now);
    assert AllDays([c], now) == [-3];
  }
}
