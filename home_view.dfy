/**
 * The list logic of the home screen (`HomeView.swift`): the counters shown
 * for the selected category and search text, split into pinned and
 * unpinned. The case-insensitive, locale-aware `contains` the search uses is
 * the parameter `contains`, `contains(haystack, needle)`.
 */
module HomeView {
  import opened Wrappers
  import opened Foundation
  import opened Seqs
  import opened CounterModel
  import opened StoreOps

  /** `{ $0.categoryId == categoryId }` */
  function InCategory(id: Uuid): Counter -> bool {
    (c: Counter) => c.categoryId == Some(id)
  }

  /** The search match: the name contains the text, or there is a note and it does. */
  function MatchesSearch(contains: (string, string) -> bool, text: string): Counter -> bool {
    (c: Counter) => contains(c.name, text) || (c.note.Some? && contains(c.note.value, text))
  }

  /** What `filteredCounters` keeps of a counter. */
  predicate Shown(c: Counter, selectedCategory: Option<Uuid>, searchText: string, contains: (string, string) -> bool) {
    && (selectedCategory.Some? ==> c.categoryId == selectedCategory)
    && (searchText != "" ==> MatchesSearch(contains, searchText)(c))
  }

  /** `filteredCounters`: the category filter when a category is selected, then the search filter when there is text. */
  function FilteredCounters(counters: seq<Counter>, selectedCategory: Option<Uuid>, searchText: string,
                            contains: (string, string) -> bool): seq<Counter>
  {
    var byCategory := if selectedCategory.Some? then Filter(counters, InCategory(selectedCategory.value)) else counters;
    if searchText != "" then Filter(byCategory, MatchesSearch(contains, searchText)) else byCategory
  }

  /**
   * The shown counters are exactly the counters that pass both filters, in
   * the store's order; with no category and no text, they are all the
   * counters.
   */
  lemma FilteredCountersShown(counters: seq<Counter>, selectedCategory: Option<Uuid>, searchText: string,
                              contains: (string, string) -> bool)
    ensures var r := FilteredCounters(counters, selectedCategory, searchText, contains);
      && IsSubsequence(r, counters)
      && (forall c :: c in r <==> c in counters && Shown(c, selectedCategory, searchText, contains))
      && (selectedCategory.None? && searchText == "" ==> r == counters)
  {
    var shown := (c: Counter) => Shown(c, selectedCategory, searchText, contains);
    match selectedCategory
    case None =>
      if searchText != "" {
        FilterIsSubsequence(counters, MatchesSearch(contains, searchText));
        FilterMembers(counters, MatchesSearch(contains, searchText));
      } else {
        IsSubsequenceReflexive(counters);
      }
    case Some(id) =>
      if searchText != "" {
        FilterFilter(counters, InCategory(id), MatchesSearch(contains, searchText), shown);
        FilterIsSubsequence(counters, shown);
        FilterMembers(counters, shown);
      } else {
        FilterIsSubsequence(counters, InCategory(id));
        FilterMembers(counters, InCategory(id));
      }
  }

  /** The home screen's `pinnedCounters`. */
  function ShownPinned(counters: seq<Counter>, selectedCategory: Option<Uuid>, searchText: string,
                       contains: (string, string) -> bool): seq<Counter>
  {
    Pinned(FilteredCounters(counters, selectedCategory, searchText, contains))
  }

  /** The home screen's `unpinnedCounters`. */
  function ShownUnpinned(counters: seq<Counter>, selectedCategory: Option<Uuid>, searchText: string,
                         contains: (string, string) -> bool): seq<Counter>
  {
    Unpinned(FilteredCounters(counters, selectedCategory, searchText, contains))
  }

  /**
   * The two sections split the shown counters: each keeps their order, a
   * counter is in the pinned one exactly when it is shown and pinned, and
   * together they hold every shown counter once.
   */
  lemma ShownSections(counters: seq<Counter>, selectedCategory: Option<Uuid>, searchText: string,
                      contains: (string, string) -> bool)
    ensures var shown := FilteredCounters(counters, selectedCategory, searchText, contains);
      var p, u := ShownPinned(counters, selectedCategory, searchText, contains),
                  ShownUnpinned(counters, selectedCategory, searchText, contains);
      && IsSubsequence(p, shown) && IsSubsequence(u, shown)
      && (forall c :: c in p <==> c in counters && Shown(c, selectedCategory, searchText, contains) && c.isPinned)
      && (forall c :: c in u <==> c in counters && Shown(c, selectedCategory, searchText, contains) && !c.isPinned)
      && multiset(p) + multiset(u) == multiset(shown)
  {
    FilteredCountersShown(counters, selectedCategory, searchText, contains);
    PinnedSplit(FilteredCounters(counters, selectedCategory, searchText, contains));
  }
}
