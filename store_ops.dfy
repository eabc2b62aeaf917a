/**
 * What the store's mutators and queries (`DataManager.swift`) do to its
 * lists, as functions on values. The store class applies them in place; the
 * lemmas here say what they change and what they keep.
 */
module StoreOps {
  import opened Wrappers
  import opened Foundation
  import opened Seqs
  import opened CounterModel
  import opened CategoryModel

  /** `{ $0.id == id }` over counters */
  function CounterIdIs(id: Uuid): Counter -> bool {
    (c: Counter) => c.id == id
  }

  /** `{ $0.id != id }` over counters: what `removeAll { $0.id == id }` keeps */
  function CounterIdIsNot(id: Uuid): Counter -> bool {
    (c: Counter) => c.id != id
  }

  /** `{ $0.id == id }` over categories */
  function CategoryIdIs(id: Uuid): Category -> bool {
    (k: Category) => k.id == id
  }

  /** `{ $0.id != id }` over categories: what `removeAll { $0.id == id }` keeps */
  function CategoryIdIsNot(id: Uuid): Category -> bool {
    (k: Category) => k.id != id
  }

  /** `s[s.firstIndex(where: p)!] = x` when there is such an index; otherwise `s` as it is. */
  function ReplaceFirst<T>(s: seq<T>, p: T -> bool, x: T): (r: seq<T>)
    ensures |r| == |s|
  {
    match FirstIndex(s, p)
    case None => s
    case Some(i) => s[i := x]
  }

  /** Only the first match is replaced: every other element, and the length, stay as they were. */
  lemma ReplaceFirstChangesOnlyFirstMatch<T>(s: seq<T>, p: T -> bool, x: T)
    ensures |ReplaceFirst(s, p, x)| == |s|
    ensures (forall k :: 0 <= k < |s| ==> !p(s[k])) ==> ReplaceFirst(s, p, x) == s
    ensures forall k :: 0 <= k < |s| && p(s[k]) && (forall j :: 0 <= j < k ==> !p(s[j])) ==>
      ReplaceFirst(s, p, x)[k] == x &&
      forall m :: 0 <= m < |s| && m != k ==> ReplaceFirst(s, p, x)[m] == s[m]
  {
    var i := FirstIndex(s, p);
    forall k | 0 <= k < |s| && p(s[k]) && (forall j :: 0 <= j < k ==> !p(s[j]))
      ensures i == Some(k)
    {
      assert i.Some?;
      assert !(i.value < k) && !(k < i.value);
    }
  }

  /** `counters.firstIndex(where:)` flips `isPinned` of the first counter with the identifier. */
  function TogglePinned(s: seq<Counter>, id: Uuid): (r: seq<Counter>)
    ensures |r| == |s|
  {
    match FirstIndex(s, CounterIdIs(id))
    case None => s
    case Some(i) => s[i := s[i].(isPinned := !s[i].isPinned)]
  }

  /** A toggle changes `isPinned` of the first counter with the identifier and nothing else. */
  lemma TogglePinnedFrame(s: seq<Counter>, id: Uuid)
    ensures forall k :: 0 <= k < |s| ==>
      TogglePinned(s, id)[k].(isPinned := s[k].isPinned) == s[k]
    ensures forall k :: 0 <= k < |s| ==>
      (TogglePinned(s, id)[k].isPinned != s[k].isPinned <==>
        s[k].id == id && forall j :: 0 <= j < k ==> s[j].id != id)
  {
    var i := FirstIndex(s, CounterIdIs(id));
    forall k | 0 <= k < |s|
      ensures TogglePinned(s, id)[k].isPinned != s[k].isPinned <==>
        s[k].id == id && forall j :: 0 <= j < k ==> s[j].id != id
    {
      if s[k].id == id && forall j :: 0 <= j < k ==> s[j].id != id {
        assert i.Some?;
        assert !(i.value < k) && !(k < i.value);
      }
    }
  }

  /** Toggling twice gives back the original list. */
  lemma TogglePinnedTwice(s: seq<Counter>, id: Uuid)
    ensures TogglePinned(TogglePinned(s, id), id) == s
  {
    var t := TogglePinned(s, id);
    FirstIndexAgree(s, t, CounterIdIs(id));
  }

  /**
   * `removeAll { $0.id == id }` removes every element with the identifier and
   * keeps all the others, in their order.
   */
  lemma RemoveCounterById(s: seq<Counter>, id: Uuid)
    ensures var r := Filter(s, CounterIdIsNot(id));
      && (forall c :: c in r ==> c.id != id)
      && (forall c :: c in s && c.id != id ==> c in r)
      && IsSubsequence(r, s)
      && |r| + |Filter(s, CounterIdIs(id))| == |s|
  {
    FilterMembers(s, CounterIdIsNot(id));
    FilterIsSubsequence(s, CounterIdIsNot(id));
    FilterPartition(s, CounterIdIsNot(id), CounterIdIs(id));
  }

  /** The same for categories. */
  lemma RemoveCategoryById(s: seq<Category>, id: Uuid)
    ensures var r := Filter(s, CategoryIdIsNot(id));
      && (forall k :: k in r ==> k.id != id)
      && (forall k :: k in s && k.id != id ==> k in r)
      && IsSubsequence(r, s)
      && |r| + |Filter(s, CategoryIdIs(id))| == |s|
  {
    FilterMembers(s, CategoryIdIsNot(id));
    FilterIsSubsequence(s, CategoryIdIsNot(id));
    FilterPartition(s, CategoryIdIsNot(id), CategoryIdIs(id));
  }

  /** Drops the category reference of a counter that points at `id`. */
  function ClearReference(c: Counter, id: Uuid): Counter {
    if c.categoryId == Some(id) then c.(categoryId := None) else c
  }

  /**
   * The first half of `deleteCategory`: every counter that references the
   * category loses the reference, and no other counter changes.
   */
  function ClearCategory(s: seq<Counter>, id: Uuid): (r: seq<Counter>)
    ensures |r| == |s|
    ensures forall c :: c in r ==> c.categoryId != Some(id)
    ensures forall k :: 0 <= k < |s| && s[k].categoryId != Some(id) ==> r[k] == s[k]
    ensures forall k :: 0 <= k < |s| && s[k].categoryId == Some(id) ==> r[k] == s[k].(categoryId := None)
    decreases |s|
  {
    if s == [] then [] else [ClearReference(s[0], id)] + ClearCategory(s[1..], id)
  }

  /** Every category a counter references is in the category list. */
  ghost predicate ReferencesResolve(counters: seq<Counter>, categories: seq<Category>) {
    forall c :: c in counters && c.categoryId.Some? ==>
      exists k :: k in categories && k.id == c.categoryId.value
  }

  /** `deleteCategory` keeps every reference resolvable: it never leaves a counter pointing at a removed category. */
  lemma DeleteCategoryKeepsReferences(counters: seq<Counter>, categories: seq<Category>, id: Uuid)
    requires ReferencesResolve(counters, categories)
    ensures ReferencesResolve(ClearCategory(counters, id), Filter(categories, CategoryIdIsNot(id)))
  {
    var cleared := ClearCategory(counters, id);
    var kept := Filter(categories, CategoryIdIsNot(id));
    FilterMembers(categories, CategoryIdIsNot(id));
    forall c | c in cleared && c.categoryId.Some?
      ensures exists k :: k in kept && k.id == c.categoryId.value
    {
      var i :| 0 <= i < |cleared| && cleared[i] == c;
      assert counters[i] in counters;
      var k :| k in categories && k.id == c.categoryId.value;
      assert k in kept;
    }
  }

  /** `getCategory(id:)`: nothing for no identifier, else the first category with it. */
  function CategoryWithId(categories: seq<Category>, id: Option<Uuid>): (r: Option<Category>)
    ensures id.None? ==> r.None?
    ensures id.Some? ==> (r.None? <==> forall k :: 0 <= k < |categories| ==> categories[k].id != id.value)
    ensures r.Some? ==> r.value in categories && r.value.id == id.value
    ensures r.Some? ==>
      exists i :: 0 <= i < |categories| && categories[i] == r.value && (forall j :: 0 <= j < i ==> categories[j].id != id.value)
  {
    match id
    case None => None
    case Some(key) =>
      var i := FirstIndex(categories, CategoryIdIs(key));
      if i.None? then None else Some(categories[i.value])
  }

  /** `pinnedCounters` */
  function Pinned(s: seq<Counter>): seq<Counter> {
    Filter(s, (c: Counter) => c.isPinned)
  }

  /** `unpinnedCounters` */
  function Unpinned(s: seq<Counter>): seq<Counter> {
    Filter(s, (c: Counter) => !c.isPinned)
  }

  /** The pinned and unpinned lists keep the order of `s` and between them hold each counter exactly once. */
  lemma PinnedSplit(s: seq<Counter>)
    ensures IsSubsequence(Pinned(s), s) && IsSubsequence(Unpinned(s), s)
    ensures forall c :: c in Pinned(s) <==> c in s && c.isPinned
    ensures forall c :: c in Unpinned(s) <==> c in s && !c.isPinned
    ensures |Pinned(s)| + |Unpinned(s)| == |s|
    ensures multiset(Pinned(s)) + multiset(Unpinned(s)) == multiset(s)
  {
    FilterMembers(s, (c: Counter) => c.isPinned);
    FilterMembers(s, (c: Counter) => !c.isPinned);
    FilterIsSubsequence(s, (c: Counter) => c.isPinned);
    FilterIsSubsequence(s, (c: Counter) => !c.isPinned);
    FilterPartition(s, (c: Counter) => c.isPinned, (c: Counter) => !c.isPinned);
  }
}
