# DayCounter in Dafny

A model of the domain layer of DayCounter, an iOS app for counting the days
until an event (count-until) or since one (count-since). The model covers:

- the `Counter`, `Category`, `Achievement` and `UserSettings` records, with
  their defaults and derived values (`daysCount`, `progressPercentage`,
  `anniversary`, `formattedTime`, `progressText`, `formatString`);
- `TimeFormat.formatDays`;
- the store `DataManager`: loading with fallbacks, saving, the counter,
  category and settings mutators, `getCategory` and the pinned/unpinned lists;
- the sample data that `loadSampleData` installs;
- the achievement engine `AchievementManager`: its eight rules and the two
  primitives `unlockAchievement` and `updateProgress`;
- the logic inside three screens: home-screen filtering, achievement
  statistics, and the counter form with its category sheet.

How the model is laid out:

- A date is a whole day number, and the current date is the parameter `now`.
- A UUID is an integer. Each fresh `UUID()` is an identifier the caller
  hands in.
- The calendar's year/month/day and month/day decompositions are
  uninterpreted functions, held in a `Calendar` value.
- `UserDefaults` is the record `Stored`. It holds one decoded value per key,
  or none when the key is missing or does not decode.
- The store and the achievement manager are classes whose methods change
  their fields in place.
- Each mutator is specified by a function on values (module `StoreOps`,
  module `AchievementRules`). The lemmas about those functions state what
  the source promises.
- The achievement check is a list of eight `Action`s, one per rule, applied
  in order (`CheckAll`).
- Rendered strings are read back by small parsers, so that what a string
  shows is stated as a round trip.

`progressPercentage` returns 0 when the start-to-target span is not positive
(`Counter.swift:72`). The `?? 1` default applies only when the day component
is missing.

Modules, in dependency order:

| module | file | what it holds |
|---|---|---|
| `Wrappers` | `wrappers.dfy` | `Option` |
| `Foundation` | `foundation.dfy` | `Date`, `Uuid`, `Abs`, `Min` |
| `Seqs` | `seqs.dfy` | `firstIndex(where:)`, `first(where:)`, `filter`, `map` and `max()` as functions, with their lemmas |
| `Text` | `text.dfy` | decimal rendering of integers and its parser |
| `CounterModel` | `counter.dfy` | the counter record |
| `CategoryModel` | `category.dfy` | the category record |
| `AchievementModel` | `achievement.dfy` | the achievement record and catalog |
| `Settings` | `user_settings.dfy` | the settings enumerations and defaults |
| `Extensions` | `extensions.dfy` | `formatDays` |
| `StoreOps` | `store_ops.dfy` | the store's list operations as values |
| `SampleData` | `sample_data.dfy` | the sample counters |
| `AchievementRules` | `achievement_rules.dfy` | the engine as values |
| `Managers` | `managers.dfy` | the `DataManager` and `AchievementManager` classes |
| `HomeView` | `home_view.dfy` | home-screen filtering and sections |
| `AchievementsView` | `achievements_view.dfy` | achievement statistics |
| `AddEditCounter` | `add_edit_counter.dfy` | the counter form and the category sheet |

## Model

| member | source | states |
|---|---|---|
| CounterModel.CounterInitDefaults | DayCounter/Models/Counter.swift:31-57 | An omitted init argument takes its default: the start and creation dates are now, the emoji is "📅" and the color "#007AFF", there is no category, note or time format, progress is shown, and the counter is unpinned. |
| CounterModel.DaysCount | DayCounter/Models/Counter.swift:60-64 | For count-until, the signed day difference from now to the target. For count-since, its absolute value, which is never negative. |
| CounterModel.ProgressPercentage | DayCounter/Models/Counter.swift:67-73 | It is 0 for every count-since counter, and 0 when the start-to-target span is not positive. Otherwise it equals elapsed / span · 100 exactly, with no clamping. |
| CounterModel.ProgressReachesHundred | DayCounter/Models/Counter.swift:70-72 | With a positive span, the percentage is at least 100 exactly when the elapsed days reach the span. |
| CounterModel.ProgressNegativeBeforeStart | DayCounter/Models/Counter.swift:71-72 | With a positive span, the percentage is negative exactly when now is before the start date. |
| CounterModel.ProgressEndpoints | DayCounter/Models/Counter.swift:71-72 | With a positive span, the percentage is 0 on the start date and 100 on the target date. |
| CounterModel.Anniversary | DayCounter/Models/Counter.swift:76-81 | It is absent exactly for count-until counters. Otherwise it holds the calendar's years, months and days from the target to now, with a missing component read as 0. |
| CounterModel.FormattedDaysRoundTrip | DayCounter/Models/Counter.swift:88-93 | The days format reads back as the magnitude of `daysCount`, with nothing after it. |
| CounterModel.FormattedWeeksRoundTrip | DayCounter/Models/Counter.swift:88-101 | The weeks format reads back as a pair (w, r) with 7w + r = abs(daysCount) and r < 7. The day part is present exactly when r > 0. |
| CounterModel.FormattedMonthsRoundTrip | DayCounter/Models/Counter.swift:102-111 | The months format reads back as the absolute values of the calendar's month and day components. The day part is present exactly when it is not zero. |
| CounterModel.TimeUnitLabelInjective | DayCounter/Models/Counter.swift:116-122 | Different formats get different unit labels. |
| CategoryModel.CategoryInitDefaults | DayCounter/Models/Category.swift:11-21 | An omitted emoji is "📁" and an omitted color is "#007AFF". The identifier is the freshly drawn one, and every other field is copied from the arguments. |
| CategoryModel.DefaultCategories | DayCounter/Models/Category.swift:27-32 | There are exactly four built-in categories, with pairwise-distinct identifiers and pairwise-distinct names. |
| CategoryModel.DefaultNames | DayCounter/Models/Category.swift:27-32 | The built-in names, in order, are Personal, Work, Health and Learning. |
| CategoryModel.IsDefaultNameExactly | DayCounter/Managers/AchievementManager.swift:79-81 | A name matches some built-in category exactly when it is one of the four built-in names. |
| AchievementModel.ProgressText | DayCounter/Models/Achievement.swift:39-42 | There is no text exactly when the progress or the maximum is missing. |
| AchievementModel.ProgressTextRoundTrip | DayCounter/Models/Achievement.swift:39-42 | When both are present, the text "progress/maxProgress" reads back as exactly those two numbers. |
| AchievementModel.CatalogIds | DayCounter/Models/Achievement.swift:44-127 | The catalog has eight entries with pairwise-distinct identifiers. |
| AchievementModel.CatalogLocked | DayCounter/Models/Achievement.swift:44-127 | Every entry starts locked, with no unlock date, and has a progress exactly when it has a maximum. |
| AchievementModel.CatalogProgress | DayCounter/Models/Achievement.swift:44-127 | Organizer, month_master, streak_legend, categorizer and year_champion start at 0 of 5, 30, 100, 3 and 365. first_step, week_warrior and perfectionist track no progress. |
| AchievementModel.CatalogPoints | DayCounter/Models/Achievement.swift:44-127 | The catalog's points add up to 940. |
| Settings.FormatStringFollowsDisplayName | DayCounter/Models/UserSettings.swift:33-47 | Each style's format string is its display name with the day and year letters in lower case. |
| Settings.DateStylesDistinct | DayCounter/Models/UserSettings.swift:33-47 | Different date styles have different display names and different format strings. |
| Settings.DefaultSettingsValues | DayCounter/Models/UserSettings.swift:65-98 | The defaults are English, the system theme, standard text size, DD.MM.YYYY, the days format, and the profile "User" with "👤". |
| Extensions.UnitWordIsLabel | DayCounter/Utils/Extensions.swift:51-70 | The words after the number are a space followed by the format's `timeUnitLabel`. |
| Extensions.SpelledOut | DayCounter/Utils/Extensions.swift:51-70 | The text is n whole units, or n units followed by r days, where n · unit + r = abs(days) and unit is 1, 7 or 30. The leftover part is present exactly when r ≠ 0. |
| Extensions.FormatDaysUsesUnitLabel | DayCounter/Utils/Extensions.swift:51-70 | With no leftover days, the text is the number of units followed by the unit label. |
| Extensions.FormatDaysRoundTrip | DayCounter/Utils/Extensions.swift:51-70 | The text reads back as abs(days), for every format. |
| Extensions.FormatDaysInjective | DayCounter/Utils/Extensions.swift:51-70 | Two day counts give the same text only when their magnitudes agree. |
| Extensions.FormatDaysIgnoresSign | DayCounter/Utils/Extensions.swift:51-70 | formatDays(d) equals formatDays(-d). |
| StoreOps.ReplaceFirstChangesOnlyFirstMatch | DayCounter/Managers/DataManager.swift:107-112 | Only the first element with the identifier is replaced. Nothing changes when there is no match, and the length never changes. |
| StoreOps.TogglePinnedFrame | DayCounter/Managers/DataManager.swift:119-124 | `isPinned` flips on exactly the first counter with the identifier. Every other field of every counter is kept. |
| StoreOps.TogglePinnedTwice | DayCounter/Managers/DataManager.swift:119-124 | Toggling twice gives back the original list. |
| StoreOps.RemoveCounterById | DayCounter/Managers/DataManager.swift:114-117 | No counter with the identifier is left. Every other counter stays, in order, and the removed counters plus the kept ones make up the original count. |
| StoreOps.RemoveCategoryById | DayCounter/Managers/DataManager.swift:149 | The same holds for categories. |
| StoreOps.ClearCategory | DayCounter/Managers/DataManager.swift:142-146 | The count is unchanged and no counter keeps the category. A counter that referenced it loses only that reference, and every other counter is unchanged. |
| StoreOps.DeleteCategoryKeepsReferences | DayCounter/Managers/DataManager.swift:140-151 | If every reference resolved before `deleteCategory`, every reference still resolves afterwards. |
| StoreOps.CategoryWithId | DayCounter/Managers/DataManager.swift:160-163 | No identifier gives nothing. An identifier gives nothing exactly when no category has it, and otherwise gives the first category with it. |
| StoreOps.PinnedSplit | DayCounter/Managers/DataManager.swift:165-171 | The pinned and unpinned lists are order-preserving subsequences holding the pinned and the unpinned counters. Together they are a permutation of the counters. |
| Managers.DataManager.constructor | DayCounter/Managers/DataManager.swift:24-31 | After init there is always a counter. Stored counters are taken as they are. With none stored, the sample data is installed and the achievement check has run. The settings are the stored ones or the saved defaults. |
| Managers.DataManager.LoadData | DayCounter/Managers/DataManager.swift:34-39 | Each list takes its stored value when that value decodes. Otherwise counters and achievements keep their values, while categories and settings take their defaults and only those two are written back. |
| Managers.DataManager.LoadCounters | DayCounter/Managers/DataManager.swift:41-46 | The stored counters if they decode; otherwise the counters are unchanged and nothing is saved. |
| Managers.DataManager.LoadCategories | DayCounter/Managers/DataManager.swift:48-56 | The stored categories if they decode; otherwise the built-in categories, which are saved. |
| Managers.DataManager.LoadSettings | DayCounter/Managers/DataManager.swift:58-66 | The stored settings if they decode; otherwise the defaults, which are saved. |
| Managers.DataManager.LoadAchievements | DayCounter/Managers/DataManager.swift:68-73 | The stored achievements if they decode; otherwise the achievements are unchanged and nothing is saved. |
| Managers.DataManager.SaveCounters | DayCounter/Managers/DataManager.swift:76-80 | The counters key holds the current counters, and no other key changes. |
| Managers.DataManager.SaveCategories | DayCounter/Managers/DataManager.swift:82-86 | The categories key holds the current categories, and no other key changes. |
| Managers.DataManager.SaveSettings | DayCounter/Managers/DataManager.swift:88-92 | The settings key holds the current settings, and no other key changes. |
| Managers.DataManager.SaveAchievements | DayCounter/Managers/DataManager.swift:94-98 | The achievements key holds the current achievements, and no other key changes. |
| Managers.DataManager.CheckAchievements | DayCounter/Managers/DataManager.swift:104 | The achievements become `CheckAll` of the old ones, and nothing else in the store changes. A changed list is saved. |
| Managers.DataManager.AddCounter | DayCounter/Managers/DataManager.swift:101-105 | The counter is appended, the counters are saved, and the achievement check runs on the new list. |
| Managers.DataManager.UpdateCounter | DayCounter/Managers/DataManager.swift:107-112 | Only the first counter with the identifier is replaced, and the list is saved only when such a counter exists. The check does not run. |
| Managers.DataManager.DeleteCounter | DayCounter/Managers/DataManager.swift:114-117 | Every counter with the identifier is removed, the others keep their order, and the counters are saved. |
| Managers.DataManager.TogglePin | DayCounter/Managers/DataManager.swift:119-124 | `isPinned` flips on the first counter with the identifier, which is saved when it exists. |
| Managers.DataManager.AddCategory | DayCounter/Managers/DataManager.swift:127-131 | The category is appended, the categories are saved, and the achievement check runs. |
| Managers.DataManager.UpdateCategory | DayCounter/Managers/DataManager.swift:133-138 | Only the first category with the identifier is replaced, and the list is saved only when such a category exists. |
| Managers.DataManager.DeleteCategory | DayCounter/Managers/DataManager.swift:140-151 | The loop clears the reference on every counter that has it and changes no other counter. Then every category with the identifier is removed and both lists are saved. |
| Managers.DataManager.UpdateSettings | DayCounter/Managers/DataManager.swift:154-157 | The settings are replaced and saved, and nothing else changes. |
| Managers.DataManager.LoadSampleData | DayCounter/Utils/SampleData.swift:14-97 | The categories become the built-in ones and the counters become the five samples, in order. Both are saved, and then the achievement check runs. |
| Managers.DataManager.ResetToSampleData | DayCounter/Utils/SampleData.swift:14-93 | The two lists are replaced and saved. Settings and achievements are untouched. |
| Managers.DataManager.UseSampleLists | DayCounter/Utils/SampleData.swift:16-89 | The counters are emptied, the categories become the built-in ones, and the counters become the samples looked up in those categories. |
| Managers.DataManager.BuildSampleCounters | DayCounter/Utils/SampleData.swift:23-89 | The counters become the five samples, each category looked up by name in the current list. |
| Managers.AchievementManager.constructor | DayCounter/Managers/AchievementManager.swift:13 | The manager is bound to the store it updates. |
| Managers.AchievementManager.CheckAchievements | DayCounter/Managers/AchievementManager.swift:15-24 | The eight steps, run in order, produce `CheckAll`. Counters, categories and settings are unchanged. |
| Managers.CheckAllInSteps | DayCounter/Managers/AchievementManager.swift:15-24 | The eight rule actions applied one at a time give `CheckAll`. |
| Managers.AchievementManager.UnlockAchievement | DayCounter/Managers/AchievementManager.swift:26-34 | Only a locked first entry with the identifier changes: it becomes unlocked, is stamped with now, and is saved. Otherwise nothing changes. |
| Managers.AchievementManager.UpdateProgress | DayCounter/Managers/AchievementManager.swift:36-44 | The first entry with the identifier gets the new progress, even a lower one, and is saved. It also unlocks when it has a maximum and the progress reaches it. An unknown identifier changes nothing. |
| Managers.AchievementManager.CheckFirstStep | DayCounter/Managers/AchievementManager.swift:46-50 | The store's achievements are the first-step action applied. |
| Managers.AchievementManager.CheckOrganizer | DayCounter/Managers/AchievementManager.swift:52-55 | The store's achievements are the organizer action applied. |
| Managers.AchievementManager.CheckWeekWarrior | DayCounter/Managers/AchievementManager.swift:57-64 | The store's achievements are the week-warrior action applied. |
| Managers.AchievementManager.CheckMonthMaster | DayCounter/Managers/AchievementManager.swift:66-70 | The store's achievements are the month-master action applied. |
| Managers.AchievementManager.CheckStreakLegend | DayCounter/Managers/AchievementManager.swift:72-76 | The store's achievements are the streak-legend action applied. |
| Managers.AchievementManager.CheckCategorizer | DayCounter/Managers/AchievementManager.swift:78-83 | The store's achievements are the categorizer action applied. |
| Managers.AchievementManager.CheckPerfectionist | DayCounter/Managers/AchievementManager.swift:85-92 | The store's achievements are the perfectionist action applied. |
| Managers.AchievementManager.CheckYearChampion | DayCounter/Managers/AchievementManager.swift:94-98 | The store's achievements are the year-champion action applied. |
| AchievementRules.Target | DayCounter/Managers/AchievementManager.swift:27 | An action lands, if anywhere, on an entry that carries its identifier. |
| AchievementRules.EffectFollows | DayCounter/Managers/AchievementManager.swift:26-44 | An action changes only the unlock flag, the unlock date and the progress. An unlocked entry stays unlocked with its date, and a newly unlocked one is dated now. |
| AchievementRules.EffectIdempotent | DayCounter/Managers/AchievementManager.swift:26-44 | Applying an action twice is the same as applying it once. |
| AchievementRules.ApplyFollows | DayCounter/Managers/AchievementManager.swift:26-44 | One call changes at most the entry it lands on, and changes that entry only as `EffectFollows` allows. |
| AchievementRules.ApplyAll | DayCounter/Managers/AchievementManager.swift:15-24 | Any sequence of actions leaves every entry as `EffectFollows` allows. |
| AchievementRules.CheckAll | DayCounter/Managers/AchievementManager.swift:15-24 | After a check, no unlocked achievement is locked again and no unlock date is rewritten. Only the flag, the date and the progress may change. |
| AchievementRules.Rules | DayCounter/Managers/AchievementManager.swift:15-24 | Step k either does nothing or targets the k-th rule identifier. |
| AchievementRules.RulesAre | DayCounter/Managers/AchievementManager.swift:15-24 | The steps are the eight rules, in the source's order. |
| AchievementRules.RuleIdsDistinct | DayCounter/Managers/AchievementManager.swift:46-98 | The eight steps use pairwise-distinct identifiers. |
| AchievementRules.CheckAllAt | DayCounter/Managers/AchievementManager.swift:15-44 | Step k's entry (the first one with its identifier) ends up as step k's effect alone. |
| AchievementRules.CheckAllElsewhere | DayCounter/Managers/AchievementManager.swift:15-44 | An entry that is not the first one for some step's identifier is left untouched. |
| AchievementRules.CheckAllIdempotent | DayCounter/Managers/AchievementManager.swift:15-44 | Running the check a second time with the same counters, categories and date changes nothing. |
| AchievementRules.SetProgressEffect | DayCounter/Managers/AchievementManager.swift:36-44 | `updateProgress` sets the progress. The entry ends unlocked exactly when it already was, or when it has a maximum and the progress reaches it. |
| AchievementRules.CappedMax | DayCounter/Managers/AchievementManager.swift:66-70 | No days means no update. Otherwise the progress is set for the given identifier, to a value no greater than the cap. |
| AchievementRules.CappedMaxEffect | DayCounter/Managers/AchievementManager.swift:66-76 | No days leaves the entry as it is. Otherwise the progress becomes the largest of the days, each capped first, and the unlock follows `SetProgressEffect`. |
| AchievementRules.SinceDaysMembers | DayCounter/Managers/AchievementManager.swift:67 | The days maximised are exactly the `daysCount` values of the count-since counters. |
| AchievementRules.AllDaysMembers | DayCounter/Managers/AchievementManager.swift:95 | The days maximised are exactly the `daysCount` values of all the counters. |
| AchievementRules.CustomCategoriesAppend | DayCounter/Managers/AchievementManager.swift:79-81 | The custom categories are those whose name is not a built-in name. Adding a category adds one to their count exactly when its name is not built in. |
| AchievementRules.CustomCategoriesOfDefaults | DayCounter/Managers/AchievementManager.swift:79-81 | The built-in categories alone count as no custom category. |
| AchievementRules.FirstStepAfterCheck | DayCounter/Managers/AchievementManager.swift:46-50 | first_step is unlocked after a check exactly when it already was or there is at least one counter. |
| AchievementRules.OrganizerAfterCheck | DayCounter/Managers/AchievementManager.swift:52-55 | organizer's progress becomes min(count, 5). It unlocks when that reaches its maximum. |
| AchievementRules.WeekWarriorAfterCheck | DayCounter/Managers/AchievementManager.swift:57-64 | week_warrior is unlocked exactly when it already was or some count-since counter shows 7 days or more. |
| AchievementRules.MonthMasterAfterCheck | DayCounter/Managers/AchievementManager.swift:66-70 | Without a count-since counter, month_master is untouched. Otherwise its progress is the largest count-since `daysCount`, capped at 30, and lies in [0, 30]. |
| AchievementRules.StreakLegendAfterCheck | DayCounter/Managers/AchievementManager.swift:72-76 | The same holds for streak_legend, with a cap of 100 and a range of [0, 100]. |
| AchievementRules.SinceDaysNonNegative | DayCounter/Managers/AchievementManager.swift:67 | None of the days that month_master and streak_legend take the maximum of is negative. |
| AchievementRules.CappedMaxInRange | DayCounter/Managers/AchievementManager.swift:68 | min(max of non-negative days, cap) lies between 0 and the cap. |
| AchievementRules.CategorizerAfterCheck | DayCounter/Managers/AchievementManager.swift:78-83 | categorizer's progress is min(number of custom categories, 3). |
| AchievementRules.PerfectionistAfterCheck | DayCounter/Managers/AchievementManager.swift:85-92 | perfectionist is unlocked exactly when it already was or some count-until counter has a positive span and has reached its target. |
| AchievementRules.YearChampionAfterCheck | DayCounter/Managers/AchievementManager.swift:94-98 | Without counters, year_champion is untouched. Otherwise its progress is the largest `daysCount` of any counter, capped at 365. |
| AchievementRules.YearChampionCanGoNegative | DayCounter/Managers/AchievementManager.swift:94-98 | A single count-until counter whose target passed 3 days ago gives year_champion a progress of -3. |
| SampleData.IdOfCategoryNamed | DayCounter/Utils/SampleData.swift:28 | A result exists exactly when some category has the name, and it is the identifier of such a category. |
| SampleData.SampleNames | DayCounter/Utils/SampleData.swift:23-89 | There are exactly five counters, named in the source's order. Each carries its drawn identifier and is created now. |
| SampleData.SampleKinds | DayCounter/Utils/SampleData.swift:23-86 | Three counters are count-until and two are count-since. Exactly the count-until ones show progress. |
| SampleData.SamplePinned | DayCounter/Utils/SampleData.swift:23-86 | Only Project Launch is pinned. |
| SampleData.DefaultLookups | DayCounter/Utils/SampleData.swift:28-81 | Looking up Personal, Work and Health in the built-in list finds their built-in identifiers. |
| SampleData.SampleCategories | DayCounter/Utils/SampleData.swift:23-86 | Each sample counter belongs to the built-in category its lookup names. |
| SampleData.DefaultIdsResolve | DayCounter/Utils/SampleData.swift:28-81 | `getCategory` resolves every category identifier the samples use. |
| SampleData.SampleDays | DayCounter/Utils/SampleData.swift:23-86 | On the day they are made, the samples count 42, 28, 15, 120 and 45 days. Each count-until sample has its start before now and now before its target, so its progress lies strictly between 0 and 100; Project Launch shows 75. |
| HomeView.FilteredCountersShown | DayCounter/Views/Screens/HomeView.swift:18-35 | The shown counters are an order-preserving subsequence of all counters. They are exactly the counters in the selected category whose name or note matches the text. With no category and no text they are all the counters. |
| HomeView.ShownSections | DayCounter/Views/Screens/HomeView.swift:37-43 | The pinned and unpinned sections split the shown counters, each keeping their order. Together they hold each shown counter once. |
| AchievementsView.UnlockedCountBounds | DayCounter/Views/Screens/AchievementsView.swift:13-15 | The count lies in [0, number of entries]. It is 0 exactly when nothing is unlocked, and full exactly when everything is. |
| AchievementsView.CatalogStats | DayCounter/Views/Screens/AchievementsView.swift:13-19 | The fresh catalog shows 0 unlocked and 0 points. |
| AchievementsView.UnlockRaisesStats | DayCounter/Views/Screens/AchievementsView.swift:13-19 | Unlocking one locked entry adds 1 to the count and that entry's points to the total. |
| AchievementsView.StatsNeverDrop | DayCounter/Views/Screens/AchievementsView.swift:13-19 | Along any changes a check may make, the count never drops. The total never drops either while no entry has negative points. |
| AchievementsView.CheckNeverLowersStats | DayCounter/Views/Screens/AchievementsView.swift:13-19 | `checkAchievements` never lowers the statistics. |
| AddEditCounter.NoteFromText | DayCounter/Views/Screens/AddEditCounterView.swift:407 | An empty note field becomes no note; any other text is stored as typed. |
| AddEditCounter.TextFromNote | DayCounter/Views/Screens/AddEditCounterView.swift:388 | A missing note shows as empty text; a present one shows as it is. |
| AddEditCounter.NoteRoundTrip | DayCounter/Views/Screens/AddEditCounterView.swift:388 | Text survives a store-and-show. A note survives a show-and-store, except that "" becomes no note. |
| AddEditCounter.EditKeepsIdentity | DayCounter/Views/Screens/AddEditCounterView.swift:397-412 | An edit keeps the identifier and the creation date and takes every other field from the form. |
| AddEditCounter.EditRoundTrip | DayCounter/Views/Screens/AddEditCounterView.swift:379-412 | Loading a counter into the form and saving it unchanged gives the same counter back, except that a note of "" becomes no note. |
| AddEditCounter.CreateRoundTrip | DayCounter/Views/Screens/AddEditCounterView.swift:413-430 | A created counter has the fresh identifier and is created now. Loading it gives back the form it came from. |
| AddEditCounter.AddEditCounterView.constructor | DayCounter/Views/Screens/AddEditCounterView.swift:14-28 | The form starts empty: count-until, both dates today, "📅", "#007AFF", progress shown, unpinned. |
| AddEditCounter.AddEditCounterView.OnAppear | DayCounter/Views/Screens/AddEditCounterView.swift:379-393 | In edit mode every field is loaded from the counter. Otherwise nothing changes. |
| AddEditCounter.AddEditCounterView.SaveCounter | DayCounter/Views/Screens/AddEditCounterView.swift:396-433 | Edit mode replaces the first counter with that identifier by the edited copy, and the check does not run. Create mode appends the new counter and runs the check. The counters key is saved whenever the list changes. Categories and settings are kept. It is called only with a non-empty name, because the save button is disabled otherwise (line 355). |
| AddEditCounter.AddEditCounterView.CategoryCreated | DayCounter/Views/Screens/AddEditCounterView.swift:373-376 | The new category becomes the selected one, and no other form field changes. |
| AddEditCounter.AddCategoryView.constructor | DayCounter/Views/Screens/AddEditCounterView.swift:478-482 | The sheet starts with an empty name, "📁" and "#007AFF". |
| AddEditCounter.AddCategoryView.Create | DayCounter/Views/Screens/AddEditCounterView.swift:538-544 | With an empty name nothing happens. Otherwise the new category is appended and saved, the check runs, and the callback receives that category's identifier. Counters and settings are kept. |

## Left out

- The SwiftUI view bodies (layout, sheets, navigation, `dismiss()`) are not modelled. The disabling of a button while the name is empty is modelled in two ways: as the precondition `SaveEnabled()` of `SaveCounter`, since the disabled button is its only caller, and as the empty-name branch of `AddCategoryView.Create`.
- JSON encoding and decoding and `UserDefaults` are not modelled. Each key is its decoded value, or none. A write cannot fail in the model.
- Calendar arithmetic, time zones and DST are not modelled. The day component of a span is the difference of two day numbers, and the year/month/day and month/day decompositions are uninterpreted.
- `Date()`, `UUID()` and the locale-aware `localizedCaseInsensitiveContains` come in as parameters: `now`, fresh identifiers, and the predicate `contains`.
- The `Double` arithmetic of `progressPercentage` is an exact real, so its rounding is not modelled. The display-side rounding, `Int(...)` truncation and bar widths are left out.
- `Int` is unbounded in the model, so 64-bit overflow and the trap of `abs(Int.min)` are not modelled.
- `colorValue`, `Color(hex:)`, `toHex`, `TextSize.scaleFactor` and `AppLanguage.locale` are library graphics or locale objects, and are left out.
- The `.shared` singletons are replaced by a store passed explicitly. The re-entrant access to `DataManager.shared` from `loadSampleData` while `DataManager.init` runs is therefore not modelled; the constructor runs the check on the store under construction. The delayed check of `MainTabView` is left out.
- `Localization.swift` (a string table) and `ColorPalette.swift` (constant pick-lists) are left out. The forms' default color is `ColorPalette.defaultColor`, written as the literal "#007AFF" (DayCounter/Utils/ColorPalette.swift:24).
- AchievementRules.Apply: its contract states only that the length is kept. What an action changes is stated by `ApplyFollows`, `CheckAllAt` and `CheckAllElsewhere`.
- Managers.DataManager.GetCategory, PinnedCounters and UnpinnedCounters: these carry no contract of their own. They are specified by `StoreOps.CategoryWithId` and `StoreOps.PinnedSplit`.
- SampleData.SampleDays: its exact day counts (42, 28, 15, 120, 45) and the 75% assume the sample is created and shown on the same day. In the app, a later `Date()` makes the counts of the future dates smaller, and those of the past dates larger, by the days elapsed since the sample was made.
