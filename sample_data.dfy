/** The demonstration data `loadSampleData` (`SampleData.swift`) installs when the store starts empty. */
module SampleData {
  import opened Wrappers
  import opened Foundation
  import opened Seqs
  import opened CounterModel
  import opened CategoryModel
  import opened StoreOps

  /** `categories.first(where: { $0.name == name })?.id` */
  function IdOfCategoryNamed(categories: seq<Category>, name: string): (r: Option<Uuid>)
    ensures r.Some? <==> exists k :: k in categories && k.name == name
    ensures r.Some? ==> exists k :: k in categories && k.name == name && k.id == r.value
  {
    match First(categories, (k: Category) => k.name == name)
    case None => None
    case Some(k) => Some(k.id)
  }

  function SummerVacation(now: Date, id: Uuid, categories: seq<Category>): Counter {
    NewCounter(id, now, "Summer Vacation", CountUntil, now + 42, startDate := now - 30,
               categoryId := IdOfCategoryNamed(categories, "Personal"), emoji := "🏖️", color := "#FF9500",
               note := Some("Book flights by May"), showProgress := true, isPinned := false)
  }

  function NoCoffee(now: Date, id: Uuid, categories: seq<Category>): Counter {
    NewCounter(id, now, "No Coffee Challenge", CountSince, now - 28,
               categoryId := IdOfCategoryNamed(categories, "Health"), emoji := "☕", color := "#A2845E",
               showProgress := false, isPinned := false)
  }

  function ProjectLaunch(now: Date, id: Uuid, categories: seq<Category>): Counter {
    NewCounter(id, now, "Project Launch", CountUntil, now + 15, startDate := now - 45,
               categoryId := IdOfCategoryNamed(categories, "Work"), emoji := "🚀", color := "#5856D6",
               note := Some("Final testing phase"), showProgress := true, isPinned := true)
  }

  function Wedding(now: Date, id: Uuid, categories: seq<Category>): Counter {
    NewCounter(id, now, "Wedding Anniversary", CountUntil, now + 120, startDate := now - 245,
               categoryId := IdOfCategoryNamed(categories, "Personal"), emoji := "💍", color := "#FF2D55",
               note := Some("Reserve restaurant"), showProgress := true, isPinned := false)
  }

  function GymStreak(now: Date, id: Uuid, categories: seq<Category>): Counter {
    NewCounter(id, now, "Gym Streak", CountSince, now - 45,
               categoryId := IdOfCategoryNamed(categories, "Health"), emoji := "💪", color := "#34C759",
               showProgress := false, isPinned := false)
  }

  /**
   * The five counters of `loadSampleData`, in its order. `ids` are the fresh
   * identifiers their initializers draw, `now` is the current date, and
   * `categories` is the store's category list, in which each counter's
   * category is looked up by name (`loadSampleData` has just reset it to the
   * built-in categories).
   */
  function SampleCounters(now: Date, ids: seq<Uuid>, categories: seq<Category>): seq<Counter>
    requires |ids| == 5
  {
    [SummerVacation(now, ids[0], categories), NoCoffee(now, ids[1], categories),
     ProjectLaunch(now, ids[2], categories), Wedding(now, ids[3], categories),
     GymStreak(now, ids[4], categories)]
  }

  /** A filter over five elements keeps those of them `p` accepts, in order. */
  lemma FilterFive<T(!new)>(s: seq<T>, p: T -> bool)
    requires |s| == 5
    ensures Filter(s, p) ==
      (if p(s[0]) then [s[0]] else []) + ((if p(s[1]) then [s[1]] else []) + ((if p(s[2]) then [s[2]] else [])
      + ((if p(s[3]) then [s[3]] else []) + (if p(s[4]) then [s[4]] else []))))
  {
    var t1 := s[1..];
    var t2 := t1[1..];
    var t3 := t2[1..];
    var t4 := t3[1..];
    var e0, e1, e2 := if p(s[0]) then [s[0]] else [], if p(s[1]) then [s[1]] else [], if p(s[2]) then [s[2]] else [];
    var e3, e4 := if p(s[3]) then [s[3]] else [], if p(s[4]) then [s[4]] else [];
    assert t4 == [s[4]] && t4[1..] == [];
    FilterCons(t4, p);
    assert Filter(t4, p) == e4;
    FilterCons(t3, p);
    assert Filter(t3, p) == e3 + e4;
    FilterCons(t2, p);
    assert Filter(t2, p) == e2 + (e3 + e4);
    FilterCons(t1, p);
    assert Filter(t1, p) == e1 + (e2 + (e3 + e4));
    FilterCons(s, p);
    assert Filter(s, p) == e0 + (e1 + (e2 + (e3 + e4)));
  }

  /** One unfolding step of `Filter`, stated separately so `FilterFive` stays within the solver's resource limit. */
  lemma FilterCons<T(!new)>(s: seq<T>, p: T -> bool)
    requires s != []
    ensures Filter(s, p) == (if p(s[0]) then [s[0]] else []) + Filter(s[1..], p)
  {
  }

  /** The sample holds the five named counters, each with the identifier drawn for it, created now. */
  lemma SampleNames(now: Date, ids: seq<Uuid>, categories: seq<Category>)
    requires |ids| == 5
    ensures var s := SampleCounters(now, ids, categories);
      && |s| == 5
      && s[0].name == "Summer Vacation" && s[1].name == "No Coffee Challenge" && s[2].name == "Project Launch"
      && s[3].name == "Wedding Anniversary" && s[4].name == "Gym Streak"
      && forall i :: 0 <= i < 5 ==> s[i].id == ids[i] && s[i].createdDate == now
  {
  }

  /** Three count-until and two count-since counters; only the count-until ones show progress. */
  lemma SampleKinds(now: Date, ids: seq<Uuid>, categories: seq<Category>)
    requires |ids| == 5
    ensures var s := SampleCounters(now, ids, categories);
      && |Filter(s, (c: Counter) => c.counterType == CountUntil)| == 3
      && |Filter(s, (c: Counter) => c.counterType == CountSince)| == 2
      && forall c :: c in s ==> (c.showProgress <==> c.counterType == CountUntil)
  {
    var s := SampleCounters(now, ids, categories);
    FilterFive(s, (c: Counter) => c.counterType == CountUntil);
    FilterFive(s, (c: Counter) => c.counterType == CountSince);
  }

  /** Only "Project Launch" is pinned. */
  lemma SamplePinned(now: Date, ids: seq<Uuid>, categories: seq<Category>)
    requires |ids| == 5
    ensures var s := SampleCounters(now, ids, categories);
      Pinned(s) == [s[2]] && s[2].name == "Project Launch"
  {
    FilterFive(SampleCounters(now, ids, categories), (c: Counter) => c.isPinned);
  }

  /** Looking the built-in names up in the built-in list finds the built-in identifiers. */
  lemma DefaultLookups()
    ensures IdOfCategoryNamed(DefaultCategories(), "Personal") == Some(PersonalId)
    ensures IdOfCategoryNamed(DefaultCategories(), "Work") == Some(WorkId)
    ensures IdOfCategoryNamed(DefaultCategories(), "Health") == Some(HealthId)
  {
    NameLookup(DefaultCategories(), 0);
    NameLookup(DefaultCategories(), 1);
    NameLookup(DefaultCategories(), 2);
  }

  /** Every sample counter belongs to the built-in category its name calls for. */
  lemma SampleCategories(now: Date, ids: seq<Uuid>, categories: seq<Category>)
    requires |ids| == 5 && categories == DefaultCategories()
    ensures var s := SampleCounters(now, ids, categories);
      && s[0].categoryId == Some(PersonalId) && s[1].categoryId == Some(HealthId)
      && s[2].categoryId == Some(WorkId) && s[3].categoryId == Some(PersonalId)
      && s[4].categoryId == Some(HealthId)
  {
    DefaultLookups();
  }

  /** `getCategory` finds each of the built-in identifiers the sample counters refer to. */
  lemma DefaultIdsResolve(categories: seq<Category>)
    requires categories == DefaultCategories()
    ensures CategoryWithId(categories, Some(PersonalId)).Some?
    ensures CategoryWithId(categories, Some(WorkId)).Some?
    ensures CategoryWithId(categories, Some(HealthId)).Some?
  {
    assert categories[0].id == PersonalId && categories[1].id == WorkId && categories[2].id == HealthId;
  }

  /** In the built-in list a name finds the category that carries it. */
  lemma NameLookup(d: seq<Category>, i: nat)
    requires d == DefaultCategories() && i < 4
    ensures IdOfCategoryNamed(d, d[i].name) == Some(d[i].id)
  {
    var r := First(d, (k: Category) => k.name == d[i].name);
    assert r.Some?;
    assert r.value == d[i] by {
      var k :| 0 <= k < |d| && d[k] == r.value;
      assert k == i;
    }
  }

  /** The day counts and, for the count-until counters, the progress the sample shows on the day it is made. */
  lemma SampleDays(now: Date, ids: seq<Uuid>, categories: seq<Category>)
    requires |ids| == 5
    ensures var s := SampleCounters(now, ids, categories);
      && DaysCount(s[0], now) == 42 && DaysCount(s[1], now) == 28 && DaysCount(s[2], now) == 15
      && DaysCount(s[3], now) == 120 && DaysCount(s[4], now) == 45
      && ProgressPercentage(s[2], now) == 75.0
      && (forall i :: 0 <= i < 5 && s[i].counterType == CountUntil ==>
            s[i].startDate < now < s[i].targetDate && 0.0 < ProgressPercentage(s[i], now) < 100.0)
  {
    var s := SampleCounters(now, ids, categories);
    forall i | 0 <= i < 5 && s[i].counterType == CountUntil
      ensures 0.0 < ProgressPercentage(s[i], now) < 100.0
    {
      ProgressReachesHundred(s[i], now);
      ProgressNegativeBeforeStart(s[i], now);
      assert ProgressPercentage(s[i], now) != 0.0;
    }
    assert ProgressPercentage(s[2], now) * 60.0 == 4500.0;
  }
}
