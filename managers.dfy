/**
 * The app's store (`DataManager.swift`, with `loadSampleData` from
 * `SampleData.swift`) and its achievement engine (`AchievementManager.swift`).
 * The two call each other — mutators of the store run the achievement check,
 * and the check writes the store's achievements — so they share one module.
 *
 * `UserDefaults` is the field `stored`: per key, the value its data decodes
 * to, or `None` when the key is missing or does not decode. A save writes the
 * current value under its key. The shared `AchievementManager` bound to the
 * store is a fresh `AchievementManager` over `this` wherever the store calls
 * `checkAchievements()`.
 */
module Managers {
  import opened Wrappers
  import opened Foundation
  import opened Seqs
  import opened CounterModel
  import opened CategoryModel
  import opened AchievementModel
  import opened Settings
  import opened AchievementRules
  import opened StoreOps
  import opened SampleData

  /** The four `UserDefaults` keys, each decoded. */
  datatype Stored = Stored(
    counters: Option<seq<Counter>>,
    categories: Option<seq<Category>>,
    settings: Option<UserSettings>,
    achievements: Option<seq<Achievement>>)

  /**
   * The "achievements" key across a run of checks that took the list from
   * `before` to `after`: a check that changed the list saved it; one that
   * changed nothing may or may not have saved (`updateProgress` saves even
   * when the progress was already at that value).
   */
  ghost predicate AchievementsKeySaved(keyBefore: Option<seq<Achievement>>, keyAfter: Option<seq<Achievement>>,
                                       before: seq<Achievement>, after: seq<Achievement>) {
    && (keyAfter == keyBefore || keyAfter == Some(after))
    && (after != before ==> keyAfter == Some(after))
  }

  class DataManager {
    var counters: seq<Counter>
    var categories: seq<Category>
    var settings: UserSettings
    var achievements: seq<Achievement>
    /** What `UserDefaults` holds. */
    var stored: Stored

    /**
     * `init()`: the properties start at their declared values, `loadData()`
     * reads the stored keys, and an empty counter list is replaced by the
     * sample data. `initial` is what `UserDefaults` held at launch, `now` the
     * current date, and `sampleIds` the identifiers the sample counters draw.
     */
    constructor(initial: Stored, now: Date, sampleIds: seq<Uuid>)
      requires |sampleIds| == 5
      ensures settings == initial.settings.GetOr(DefaultSettings())
      ensures stored.settings == Some(settings)
      ensures counters != []
      ensures initial.counters.GetOr([]) != [] ==>
        && counters == initial.counters.value
        && categories == initial.categories.GetOr(DefaultCategories())
        && achievements == initial.achievements.GetOr(AllAchievements())
        && stored == initial.(categories := Some(categories), settings := Some(settings))
      ensures initial.counters.GetOr([]) == [] ==>
        && counters == SampleCounters(now, sampleIds, DefaultCategories())
        && categories == DefaultCategories()
        && achievements == CheckAll(initial.achievements.GetOr(AllAchievements()), counters, categories, now)
        && stored.counters == Some(counters)
        && stored.categories == Some(categories)
        && AchievementsKeySaved(initial.achievements, stored.achievements,
                                initial.achievements.GetOr(AllAchievements()), achievements)
    {
      counters := [];
      categories := [];
      settings := DefaultSettings();
      achievements := AllAchievements();
      stored := initial;
      new;
      LoadData();
      if counters == [] {
        LoadSampleData(now, sampleIds);
      }
    }

    /** `loadData()` */
    method LoadData()
      modifies this
      ensures counters == old(stored).counters.GetOr(old(counters))
      ensures categories == old(stored).categories.GetOr(DefaultCategories())
      ensures settings == old(stored).settings.GetOr(DefaultSettings())
      ensures achievements == old(stored).achievements.GetOr(old(achievements))
      ensures stored == old(stored).(categories := Some(categories), settings := Some(settings))
    {
      LoadCounters();
      LoadCategories();
      LoadSettings();
      LoadAchievements();
    }

    /** `loadCounters()`: the stored list when it decodes; otherwise the list stays as it is. */
    method LoadCounters()
      modifies this
      ensures counters == stored.counters.GetOr(old(counters))
      ensures categories == old(categories) && settings == old(settings) && achievements == old(achievements)
      ensures stored == old(stored)
    {
      if stored.counters.Some? {
        counters := stored.counters.value;
      }
    }

    /** `loadCategories()`: the stored list when it decodes; otherwise the built-in categories, saved. */
    method LoadCategories()
      modifies this
      ensures categories == old(stored).categories.GetOr(DefaultCategories())
      ensures counters == old(counters) && settings == old(settings) && achievements == old(achievements)
      ensures stored == old(stored).(categories := Some(categories))
    {
      if stored.categories.Some? {
        categories := stored.categories.value;
      } else {
        categories := DefaultCategories();
        SaveCategories();
      }
    }

    /** `loadSettings()`: the stored settings when they decode; otherwise the defaults, saved. */
    method LoadSettings()
      modifies this
      ensures settings == old(stored).settings.GetOr(DefaultSettings())
      ensures counters == old(counters) && categories == old(categories) && achievements == old(achievements)
      ensures stored == old(stored).(settings := Some(settings))
    {
      if stored.settings.Some? {
        settings := stored.settings.value;
      } else {
        settings := DefaultSettings();
        SaveSettings();
      }
    }

    /** `loadAchievements()`: the stored list when it decodes; otherwise the list stays as it is. */
    method LoadAchievements()
      modifies this
      ensures achievements == stored.achievements.GetOr(old(achievements))
      ensures counters == old(counters) && categories == old(categories) && settings == old(settings)
      ensures stored == old(stored)
    {
      if stored.achievements.Some? {
        achievements := stored.achievements.value;
      }
    }

    /** `saveCounters()` */
    method SaveCounters()
      modifies this`stored
      ensures stored == old(stored).(counters := Some(counters))
    {
      stored := stored.(counters := Some(counters));
    }

    /** `saveCategories()` */
    method SaveCategories()
      modifies this`stored
      ensures stored == old(stored).(categories := Some(categories))
    {
      stored := stored.(categories := Some(categories));
    }

    /** `saveSettings()` */
    method SaveSettings()
      modifies this`stored
      ensures stored == old(stored).(settings := Some(settings))
    {
      stored := stored.(settings := Some(settings));
    }

    /** `saveAchievements()` */
    method SaveAchievements()
      modifies this`stored
      ensures stored == old(stored).(achievements := Some(achievements))
    {
      stored := stored.(achievements := Some(achievements));
    }

    /** `AchievementManager.shared.checkAchievements()`, run on this store. */
    method CheckAchievements(now: Date)
      modifies this
      ensures achievements == CheckAll(old(achievements), counters, categories, now)
      ensures counters == old(counters) && categories == old(categories) && settings == old(settings)
      ensures stored.(achievements := old(stored).achievements) == old(stored)
      ensures AchievementsKeySaved(old(stored).achievements, stored.achievements, old(achievements), achievements)
    {
      var manager := new AchievementManager(this);
      manager.CheckAchievements(now);
    }

    /** `addCounter(_:)`: appends, saves, and runs the achievement check. */
    method AddCounter(counter: Counter, now: Date)
      modifies this
      ensures counters == old(counters) + [counter]
      ensures categories == old(categories) && settings == old(settings)
      ensures achievements == CheckAll(old(achievements), counters, categories, now)
      ensures stored.(achievements := old(stored).achievements) == old(stored).(counters := Some(counters))
      ensures AchievementsKeySaved(old(stored).achievements, stored.achievements, old(achievements), achievements)
    {
      counters := counters + [counter];
      SaveCounters();
      CheckAchievements(now);
    }

    /** `updateCounter(_:)`: replaces the first counter with the same identifier, if there is one. */
    method UpdateCounter(counter: Counter)
      modifies this
      ensures counters == ReplaceFirst(old(counters), CounterIdIs(counter.id), counter)
      ensures categories == old(categories) && settings == old(settings) && achievements == old(achievements)
      ensures stored == if FirstIndex(old(counters), CounterIdIs(counter.id)).Some?
                        then old(stored).(counters := Some(counters)) else old(stored)
    {
      var index := FirstIndex(counters, CounterIdIs(counter.id));
      if index.Some? {
        counters := counters[index.value := counter];
        SaveCounters();
      }
    }

    /** `deleteCounter(_:)`: removes every counter with the identifier, and saves. */
    method DeleteCounter(counter: Counter)
      modifies this
      ensures counters == Filter(old(counters), CounterIdIsNot(counter.id))
      ensures categories == old(categories) && settings == old(settings) && achievements == old(achievements)
      ensures stored == old(stored).(counters := Some(counters))
    {
      counters := Filter(counters, CounterIdIsNot(counter.id));
      SaveCounters();
    }

    /** `togglePin(_:)`: flips `isPinned` of the first counter with the identifier, if there is one. */
    method TogglePin(counter: Counter)
      modifies this
      ensures counters == TogglePinned(old(counters), counter.id)
      ensures categories == old(categories) && settings == old(settings) && achievements == old(achievements)
      ensures stored == if FirstIndex(old(counters), CounterIdIs(counter.id)).Some?
                        then old(stored).(counters := Some(counters)) else old(stored)
    {
      var index := FirstIndex(counters, CounterIdIs(counter.id));
      if index.Some? {
        var i := index.value;
        counters := counters[i := counters[i].(isPinned := !counters[i].isPinned)];
        SaveCounters();
      }
    }

    /** `addCategory(_:)`: appends, saves, and runs the achievement check. */
    method AddCategory(category: Category, now: Date)
      modifies this
      ensures categories == old(categories) + [category]
      ensures counters == old(counters) && settings == old(settings)
      ensures achievements == CheckAll(old(achievements), counters, categories, now)
      ensures stored.(achievements := old(stored).achievements) == old(stored).(categories := Some(categories))
      ensures AchievementsKeySaved(old(stored).achievements, stored.achievements, old(achievements), achievements)
    {
      categories := categories + [category];
      SaveCategories();
      CheckAchievements(now);
    }

    /** `updateCategory(_:)`: replaces the first category with the same identifier, if there is one. */
    method UpdateCategory(category: Category)
      modifies this
      ensures categories == ReplaceFirst(old(categories), CategoryIdIs(category.id), category)
      ensures counters == old(counters) && settings == old(settings) && achievements == old(achievements)
      ensures stored == if FirstIndex(old(categories), CategoryIdIs(category.id)).Some?
                        then old(stored).(categories := Some(categories)) else old(stored)
    {
      var index := FirstIndex(categories, CategoryIdIs(category.id));
      if index.Some? {
        categories := categories[index.value := category];
        SaveCategories();
      }
    }

    /**
     * `deleteCategory(_:)`: clears the category from every counter that
     * references it, saves the counters, then removes every category with the
     * identifier and saves the categories.
     */
    method DeleteCategory(category: Category)
      modifies this
      ensures counters == ClearCategory(old(counters), category.id)
      ensures categories == Filter(old(categories), CategoryIdIsNot(category.id))
      ensures settings == old(settings) && achievements == old(achievements)
      ensures stored == old(stored).(counters := Some(counters), categories := Some(categories))
    {
      var i := 0;
      while i < |counters|
        invariant 0 <= i <= |counters| == |old(counters)|
        invariant forall k :: 0 <= k < i ==> counters[k] == ClearReference(old(counters)[k], category.id)
        invariant forall k :: i <= k < |counters| ==> counters[k] == old(counters)[k]
        invariant categories == old(categories) && settings == old(settings) && achievements == old(achievements)
        invariant stored == old(stored)
      {
        if counters[i].categoryId == Some(category.id) {
          counters := counters[i := counters[i].(categoryId := None)];
        }
        i := i + 1;
      }
      assert counters == ClearCategory(old(counters), category.id);
      SaveCounters();
      categories := Filter(categories, CategoryIdIsNot(category.id));
      SaveCategories();
    }

    /** `updateSettings(_:)` */
    method UpdateSettings(newSettings: UserSettings)
      modifies this
      ensures settings == newSettings
      ensures counters == old(counters) && categories == old(categories) && achievements == old(achievements)
      ensures stored == old(stored).(settings := Some(newSettings))
    {
      settings := newSettings;
      SaveSettings();
    }

    /** `getCategory(id:)` */
    function GetCategory(id: Option<Uuid>): Option<Category>
      reads this
    {
      CategoryWithId(categories, id)
    }

    /** `pinnedCounters` */
    function PinnedCounters(): seq<Counter>
      reads this
    {
      Pinned(counters)
    }

    /** `unpinnedCounters` */
    function UnpinnedCounters(): seq<Counter>
      reads this
    {
      Unpinned(counters)
    }

    /**
     * `loadSampleData()`: the built-in categories and the five sample
     * counters replace the lists, both are saved, and the achievement check
     * runs.
     */
    method LoadSampleData(now: Date, ids: seq<Uuid>)
      requires |ids| == 5
      modifies this
      ensures categories == DefaultCategories()
      ensures counters == SampleCounters(now, ids, categories)
      ensures settings == old(settings)
      ensures achievements == CheckAll(old(achievements), counters, categories, now)
      ensures stored.(achievements := old(stored).achievements)
              == old(stored).(counters := Some(counters), categories := Some(categories))
      ensures AchievementsKeySaved(old(stored).achievements, stored.achievements, old(achievements), achievements)
    {
      ResetToSampleData(now, ids);
      CheckAchievements(now);
    }

    /** The part of `loadSampleData()` before the check: the new lists, saved. */
    method ResetToSampleData(now: Date, ids: seq<Uuid>)
      requires |ids| == 5
      modifies this
      ensures categories == DefaultCategories()
      ensures counters == SampleCounters(now, ids, categories)
      ensures settings == old(settings) && achievements == old(achievements)
      ensures stored == old(stored).(counters := Some(counters), categories := Some(categories))
    {
      UseSampleLists(now, ids);
      SaveCounters();
      SaveCategories();
    }

    method UseSampleLists(now: Date, ids: seq<Uuid>)
      requires |ids| == 5
      modifies this`counters, this`categories
      ensures categories == DefaultCategories()
      ensures counters == SampleCounters(now, ids, categories)
    {
      counters := [];
      categories := DefaultCategories();
      BuildSampleCounters(now, ids);
    }

    /** The five sample counters, their categories looked up by name in the current list. */
    method BuildSampleCounters(now: Date, ids: seq<Uuid>)
      requires |ids| == 5
      modifies this`counters
      ensures counters == SampleCounters(now, ids, categories)
    {
      counters := SampleCounters(now, ids, categories);
    }
  }

  /** `AchievementManager`, bound to the store whose achievements it updates. */
  class AchievementManager {
    const dataManager: DataManager

    constructor(dataManager: DataManager)
      ensures this.dataManager == dataManager
    {
      this.dataManager := dataManager;
    }

    /** `checkAchievements()`: the eight steps in order. */
    method CheckAchievements(now: Date)
      modifies dataManager
      ensures dataManager.achievements
              == CheckAll(old(dataManager.achievements), dataManager.counters, dataManager.categories, now)
      ensures dataManager.counters == old(dataManager.counters)
      ensures dataManager.categories == old(dataManager.categories)
      ensures dataManager.settings == old(dataManager.settings)
      ensures dataManager.stored.(achievements := old(dataManager.stored).achievements) == old(dataManager.stored)
      ensures AchievementsKeySaved(old(dataManager.stored).achievements, dataManager.stored.achievements,
                                   old(dataManager.achievements), dataManager.achievements)
    {
      ghost var cs, ks := dataManager.counters, dataManager.categories;
      ghost var a0 := dataManager.achievements;
      CheckFirstStep(now);
      ghost var a1 := dataManager.achievements;
      CheckOrganizer(now);
      ghost var a2 := dataManager.achievements;
      CheckWeekWarrior(now);
      ghost var a3 := dataManager.achievements;
      CheckMonthMaster(now);
      ghost var a4 := dataManager.achievements;
      CheckStreakLegend(now);
      ghost var a5 := dataManager.achievements;
      CheckCategorizer(now);
      ghost var a6 := dataManager.achievements;
      CheckPerfectionist(now);
      ghost var a7 := dataManager.achievements;
      CheckYearChampion(now);
      CheckAllInSteps(cs, ks, now, a0, a1, a2, a3, a4, a5, a6, a7, dataManager.achievements);
    }

    /** `unlockAchievement(id:)` */
    method UnlockAchievement(id: string, now: Date)
      modifies dataManager
      ensures dataManager.achievements == Apply(old(dataManager.achievements), Unlock(id), now)
      ensures dataManager.counters == old(dataManager.counters)
      ensures dataManager.categories == old(dataManager.categories)
      ensures dataManager.settings == old(dataManager.settings)
      ensures dataManager.stored == if dataManager.achievements == old(dataManager.achievements) then old(dataManager.stored)
                                    else old(dataManager.stored).(achievements := Some(dataManager.achievements))
    {
      var index := FirstIndex(dataManager.achievements, HasId(id));
      if index.Some? {
        var i := index.value;
        if !dataManager.achievements[i].isUnlocked {
          dataManager.achievements := dataManager.achievements[i := dataManager.achievements[i].(isUnlocked := true)];
          dataManager.achievements := dataManager.achievements[i := dataManager.achievements[i].(unlockedDate := Some(now))];
          assert dataManager.achievements[i].isUnlocked;
          dataManager.SaveAchievements();
        }
      }
    }

    /** `updateProgress(id:progress:)` */
    method UpdateProgress(id: string, progress: int, now: Date)
      modifies dataManager
      ensures dataManager.achievements == Apply(old(dataManager.achievements), SetProgress(id, progress), now)
      ensures dataManager.counters == old(dataManager.counters)
      ensures dataManager.categories == old(dataManager.categories)
      ensures dataManager.settings == old(dataManager.settings)
      ensures dataManager.stored
              == if FirstIndex(old(dataManager.achievements), HasId(id)).None? then old(dataManager.stored)
                 else old(dataManager.stored).(achievements := Some(dataManager.achievements))
    {
      var index := FirstIndex(dataManager.achievements, HasId(id));
      if index.Some? {
        var i := index.value;
        ghost var before := dataManager.achievements;
        dataManager.achievements := dataManager.achievements[i := dataManager.achievements[i].(progress := Some(progress))];
        FirstIndexAgree(before, dataManager.achievements, HasId(id));
        var maxProgress := dataManager.achievements[i].maxProgress;
        if maxProgress.Some? && progress >= maxProgress.value {
          UnlockAchievement(id, now);
        }
        dataManager.SaveAchievements();
      }
    }

    /** `checkFirstStep()` */
    method CheckFirstStep(now: Date)
      modifies dataManager
      ensures dataManager.achievements == Apply(old(dataManager.achievements), FirstStepRule(dataManager.counters), now)
      ensures dataManager.counters == old(dataManager.counters)
      ensures dataManager.categories == old(dataManager.categories)
      ensures dataManager.settings == old(dataManager.settings)
      ensures dataManager.stored.(achievements := old(dataManager.stored).achievements) == old(dataManager.stored)
      ensures AchievementsKeySaved(old(dataManager.stored).achievements, dataManager.stored.achievements,
                                   old(dataManager.achievements), dataManager.achievements)
    {
      if |dataManager.counters| >= 1 {
        UnlockAchievement(FirstStep, now);
      }
    }

    /** `checkOrganizer()` */
    method CheckOrganizer(now: Date)
      modifies dataManager
      ensures dataManager.achievements == Apply(old(dataManager.achievements), OrganizerRule(dataManager.counters), now)
      ensures dataManager.counters == old(dataManager.counters)
      ensures dataManager.categories == old(dataManager.categories)
      ensures dataManager.settings == old(dataManager.settings)
      ensures dataManager.stored.(achievements := old(dataManager.stored).achievements) == old(dataManager.stored)
      ensures AchievementsKeySaved(old(dataManager.stored).achievements, dataManager.stored.achievements,
                                   old(dataManager.achievements), dataManager.achievements)
    {
      var count := |dataManager.counters|;
      UpdateProgress(Organizer, Min(count, 5), now);
    }

    /** `checkWeekWarrior()` */
    method CheckWeekWarrior(now: Date)
      modifies dataManager
      ensures dataManager.achievements == Apply(old(dataManager.achievements), WeekWarriorRule(dataManager.counters, now), now)
      ensures dataManager.counters == old(dataManager.counters)
      ensures dataManager.categories == old(dataManager.categories)
      ensures dataManager.settings == old(dataManager.settings)
      ensures dataManager.stored.(achievements := old(dataManager.stored).achievements) == old(dataManager.stored)
      ensures AchievementsKeySaved(old(dataManager.stored).achievements, dataManager.stored.achievements,
                                   old(dataManager.achievements), dataManager.achievements)
    {
      var hasWeekCounter := exists c :: c in dataManager.counters && c.counterType == CountSince && DaysCount(c, now) >= 7;
      if hasWeekCounter {
        UnlockAchievement(WeekWarrior, now);
      }
    }

    /** `checkMonthMaster()` */
    method CheckMonthMaster(now: Date)
      modifies dataManager
      ensures dataManager.achievements == Apply(old(dataManager.achievements), MonthMasterRule(dataManager.counters, now), now)
      ensures dataManager.counters == old(dataManager.counters)
      ensures dataManager.categories == old(dataManager.categories)
      ensures dataManager.settings == old(dataManager.settings)
      ensures dataManager.stored.(achievements := old(dataManager.stored).achievements) == old(dataManager.stored)
      ensures AchievementsKeySaved(old(dataManager.stored).achievements, dataManager.stored.achievements,
                                   old(dataManager.achievements), dataManager.achievements)
    {
      var maxDays := MaxOf(SinceDays(dataManager.counters, now));
      if maxDays.Some? {
        UpdateProgress(MonthMaster, Min(maxDays.value, 30), now);
      }
    }

    /** `checkStreakLegend()` */
    method CheckStreakLegend(now: Date)
      modifies dataManager
      ensures dataManager.achievements == Apply(old(dataManager.achievements), StreakLegendRule(dataManager.counters, now), now)
      ensures dataManager.counters == old(dataManager.counters)
      ensures dataManager.categories == old(dataManager.categories)
      ensures dataManager.settings == old(dataManager.settings)
      ensures dataManager.stored.(achievements := old(dataManager.stored).achievements) == old(dataManager.stored)
      ensures AchievementsKeySaved(old(dataManager.stored).achievements, dataManager.stored.achievements,
                                   old(dataManager.achievements), dataManager.achievements)
    {
      var maxDays := MaxOf(SinceDays(dataManager.counters, now));
      if maxDays.Some? {
        UpdateProgress(StreakLegend, Min(maxDays.value, 100), now);
      }
    }

    /** `checkCategorizer()` */
    method CheckCategorizer(now: Date)
      modifies dataManager
      ensures dataManager.achievements == Apply(old(dataManager.achievements), CategorizerRule(dataManager.categories), now)
      ensures dataManager.counters == old(dataManager.counters)
      ensures dataManager.categories == old(dataManager.categories)
      ensures dataManager.settings == old(dataManager.settings)
      ensures dataManager.stored.(achievements := old(dataManager.stored).achievements) == old(dataManager.stored)
      ensures AchievementsKeySaved(old(dataManager.stored).achievements, dataManager.stored.achievements,
                                   old(dataManager.achievements), dataManager.achievements)
    {
      var customCategories := CustomCategories(dataManager.categories);
      UpdateProgress(Categorizer, Min(|customCategories|, 3), now);
    }

    /** `checkPerfectionist()` */
    method CheckPerfectionist(now: Date)
      modifies dataManager
      ensures dataManager.achievements == Apply(old(dataManager.achievements), PerfectionistRule(dataManager.counters, now), now)
      ensures dataManager.counters == old(dataManager.counters)
      ensures dataManager.categories == old(dataManager.categories)
      ensures dataManager.settings == old(dataManager.settings)
      ensures dataManager.stored.(achievements := old(dataManager.stored).achievements) == old(dataManager.stored)
      ensures AchievementsKeySaved(old(dataManager.stored).achievements, dataManager.stored.achievements,
                                   old(dataManager.achievements), dataManager.achievements)
    {
      var hasPerfect := exists c :: c in dataManager.counters && c.counterType == CountUntil && ProgressPercentage(c, now) >= 100.0;
      if hasPerfect {
        UnlockAchievement(Perfectionist, now);
      }
    }

    /** `checkYearChampion()` */
    method CheckYearChampion(now: Date)
      modifies dataManager
      ensures dataManager.achievements == Apply(old(dataManager.achievements), YearChampionRule(dataManager.counters, now), now)
      ensures dataManager.counters == old(dataManager.counters)
      ensures dataManager.categories == old(dataManager.categories)
      ensures dataManager.settings == old(dataManager.settings)
      ensures dataManager.stored.(achievements := old(dataManager.stored).achievements) == old(dataManager.stored)
      ensures AchievementsKeySaved(old(dataManager.stored).achievements, dataManager.stored.achievements,
                                   old(dataManager.achievements), dataManager.achievements)
    {
      var maxDays := MaxOf(AllDays(dataManager.counters, now));
      if maxDays.Some? {
        UpdateProgress(YearChampion, Min(maxDays.value, 365), now);
      }
    }
  }

  /** Eight actions applied one after another, state by state, are `ApplyAll` of the eight. */
  lemma ApplyAllEight(xs: seq<Action>, now: Date,
                      a0: seq<Achievement>, a1: seq<Achievement>, a2: seq<Achievement>, a3: seq<Achievement>,
                      a4: seq<Achievement>, a5: seq<Achievement>, a6: seq<Achievement>, a7: seq<Achievement>,
                      a8: seq<Achievement>)
    requires |xs| == 8
    requires a1 == Apply(a0, xs[0], now) && a2 == Apply(a1, xs[1], now) && a3 == Apply(a2, xs[2], now)
    requires a4 == Apply(a3, xs[3], now) && a5 == Apply(a4, xs[4], now) && a6 == Apply(a5, xs[5], now)
    requires a7 == Apply(a6, xs[6], now) && a8 == Apply(a7, xs[7], now)
    ensures ApplyAll(a0, xs, now) == a8
  {
    var t1 := xs[1..];
    var t2 := t1[1..];
    var t3 := t2[1..];
    var t4 := t3[1..];
    var t5 := t4[1..];
    var t6 := t5[1..];
    var t7 := t6[1..];
    assert t7 == [xs[7]] && t7[1..] == [];
    assert ApplyAll(a7, t7, now) == a8;
    assert t6[0] == xs[6];
    assert ApplyAll(a6, t6, now) == a8;
    assert t5[0] == xs[5];
    assert ApplyAll(a5, t5, now) == a8;
    assert t4[0] == xs[4];
    assert ApplyAll(a4, t4, now) == a8;
    assert t3[0] == xs[3];
    assert ApplyAll(a3, t3, now) == a8;
    assert t2[0] == xs[2];
    assert ApplyAll(a2, t2, now) == a8;
    assert t1[0] == xs[1];
    assert ApplyAll(a1, t1, now) == a8;
  }

  /** The eight steps of `checkAchievements`, one after another, make up `CheckAll`. */
  lemma CheckAllInSteps(cs: seq<Counter>, ks: seq<Category>, now: Date,
                        a0: seq<Achievement>, a1: seq<Achievement>, a2: seq<Achievement>, a3: seq<Achievement>,
                        a4: seq<Achievement>, a5: seq<Achievement>, a6: seq<Achievement>, a7: seq<Achievement>,
                        a8: seq<Achievement>)
    requires a1 == Apply(a0, FirstStepRule(cs), now)
    requires a2 == Apply(a1, OrganizerRule(cs), now)
    requires a3 == Apply(a2, WeekWarriorRule(cs, now), now)
    requires a4 == Apply(a3, MonthMasterRule(cs, now), now)
    requires a5 == Apply(a4, StreakLegendRule(cs, now), now)
    requires a6 == Apply(a5, CategorizerRule(ks), now)
    requires a7 == Apply(a6, PerfectionistRule(cs, now), now)
    requires a8 == Apply(a7, YearChampionRule(cs, now), now)
    ensures a8 == CheckAll(a0, cs, ks, now)
  {
    RulesAre(cs, ks, now);
    ApplyAllEight(Rules(cs, ks, now), now, a0, a1, a2, a3, a4, a5, a6, a7, a8);
  }
}
