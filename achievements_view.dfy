/** The statistics header of the achievements screen (`AchievementsView.swift`). */
module AchievementsView {
  import opened Wrappers
  import opened Foundation
  import opened Seqs
  import opened AchievementModel
  import opened AchievementRules

  /** `{ $0.isUnlocked }` */
  function IsUnlocked(): Achievement -> bool {
    (a: Achievement) => a.isUnlocked
  }

  /** `{ !$0.isUnlocked }` */
  function IsLocked(): Achievement -> bool {
    (a: Achievement) => !a.isUnlocked
  }

  /** `unlockedCount`: how many entries are unlocked. */
  function UnlockedCount(achs: seq<Achievement>): nat {
    |Filter(achs, IsUnlocked())|
  }

  /** `totalPoints`: the points of the unlocked entries, added up. */
  function TotalPoints(achs: seq<Achievement>): int {
    PointsSum(Filter(achs, IsUnlocked()))
  }

  /** The points of two lists joined are the points of each, added. */
  lemma {:induction false} PointsSumConcat(a: seq<Achievement>, b: seq<Achievement>)
    ensures PointsSum(a + b) == PointsSum(a) + PointsSum(b)
    decreases |a|
  {
    if a == [] {
      assert a + b == b;
    } else {
      assert (a + b)[0] == a[0];
      assert (a + b)[1..] == a[1..] + b;
      PointsSumConcat(a[1..], b);
    }
  }

  /** The count lies between 0 and the number of entries, and is 0 exactly when nothing is unlocked. */
  lemma UnlockedCountBounds(achs: seq<Achievement>)
    ensures 0 <= UnlockedCount(achs) <= |achs|
    ensures UnlockedCount(achs) == 0 <==> forall i :: 0 <= i < |achs| ==> !achs[i].isUnlocked
    ensures UnlockedCount(achs) == |achs| <==> forall i :: 0 <= i < |achs| ==> achs[i].isUnlocked
  {
    var u := Filter(achs, IsUnlocked());
    var l := Filter(achs, IsLocked());
    FilterPartition(achs, IsUnlocked(), IsLocked());
    FilterMembers(achs, IsUnlocked());
    FilterMembers(achs, IsLocked());
    if forall i :: 0 <= i < |achs| ==> !achs[i].isUnlocked {
      FilterNone(achs, IsUnlocked());
    }
    if UnlockedCount(achs) == 0 {
      forall i | 0 <= i < |achs| ensures !achs[i].isUnlocked {
        assert achs[i] in achs;
      }
    }
    if forall i :: 0 <= i < |achs| ==> achs[i].isUnlocked {
      FilterNone(achs, IsLocked());
    }
    if UnlockedCount(achs) == |achs| {
      assert l == [];
      forall i | 0 <= i < |achs| ensures achs[i].isUnlocked {
        assert achs[i] in achs;
        assert achs[i] !in l;
      }
    }
  }

  /** The freshly seeded catalog shows nothing unlocked and no points. */
  lemma CatalogStats()
    ensures UnlockedCount(AllAchievements()) == 0 && TotalPoints(AllAchievements()) == 0
  {
    CatalogLocked();
    UnlockedCountBounds(AllAchievements());
  }

  /** Filtering around position `i`: what `p` keeps before it, the element if kept, what it keeps after it. */
  lemma FilterSplitAt<T(!new)>(s: seq<T>, i: nat, p: T -> bool)
    requires i < |s|
    ensures Filter(s, p) == Filter(s[..i], p) + (if p(s[i]) then [s[i]] else []) + Filter(s[i + 1..], p)
  {
    var a, b := s[..i], s[i + 1..];
    assert s == a + [s[i]] + b;
    FilterConcat(a + [s[i]], b, p);
    FilterAppend(a, s[i], p);
    calc {
      Filter(s, p);
      Filter(a + [s[i]] + b, p);
      Filter(a + [s[i]], p) + Filter(b, p);
      Filter(a, p) + (if p(s[i]) then [s[i]] else []) + Filter(b, p);
    }
  }

  /**
   * Replacing an element that `p` drops by one it keeps inserts the new one
   * between what `p` keeps before and after it.
   */
  lemma FilterReplaceDropped<T(!new)>(s: seq<T>, i: nat, x: T, p: T -> bool)
    requires i < |s| && !p(s[i]) && p(x)
    ensures Filter(s, p) == Filter(s[..i], p) + Filter(s[i + 1..], p)
    ensures Filter(s[i := x], p) == Filter(s[..i], p) + [x] + Filter(s[i + 1..], p)
  {
    var a, b := Filter(s[..i], p), Filter(s[i + 1..], p);
    FilterSplitAt(s, i, p);
    calc {
      Filter(s, p);
      a + [] + b;
      { assert a + [] == a; }
      a + b;
    }
    var t := s[i := x];
    assert t[..i] == s[..i] && t[i] == x && t[i + 1..] == s[i + 1..];
    FilterSplitAt(t, i, p);
  }

  /** Unlocking one locked entry inserts it, between the unlocked entries before and after it, into the unlocked list. */
  lemma UnlockInsertsEntry(achs: seq<Achievement>, i: nat, now: Date)
    requires i < |achs| && !achs[i].isUnlocked
    ensures var pre, post := Filter(achs[..i], IsUnlocked()), Filter(achs[i + 1..], IsUnlocked());
      && Filter(achs, IsUnlocked()) == pre + post
      && Filter(achs[i := Unlocked(achs[i], now)], IsUnlocked()) == pre + [Unlocked(achs[i], now)] + post
  {
    FilterReplaceDropped(achs, i, Unlocked(achs[i], now), IsUnlocked());
  }

  /** One more entry in the middle of a list adds one to its length and its points to the sum. */
  lemma PointsSumInsert(pre: seq<Achievement>, x: Achievement, post: seq<Achievement>)
    ensures |pre + [x] + post| == |pre + post| + 1
    ensures PointsSum(pre + [x] + post) == PointsSum(pre + post) + x.points
  {
    PointsSumConcat(pre, post);
    PointsSumConcat(pre + [x], post);
    PointsSumConcat(pre, [x]);
  }

  /** Unlocking one locked entry adds one to the count and that entry's points to the total. */
  lemma UnlockRaisesStats(achs: seq<Achievement>, i: nat, now: Date)
    requires i < |achs| && !achs[i].isUnlocked
    ensures var after := achs[i := Unlocked(achs[i], now)];
      && UnlockedCount(after) == UnlockedCount(achs) + 1
      && TotalPoints(after) == TotalPoints(achs) + achs[i].points
  {
    UnlockInsertsEntry(achs, i, now);
    PointsSumInsert(Filter(achs[..i], IsUnlocked()), Unlocked(achs[i], now), Filter(achs[i + 1..], IsUnlocked()));
  }

  /**
   * A list that follows from another by checks — nothing relocked, the points
   * kept — has at least as many unlocked entries, and, when no entry is worth
   * negative points, at least as many points.
   */
  lemma {:induction false} StatsNeverDrop(A: seq<Achievement>, B: seq<Achievement>, now: Date)
    requires FollowsAll(A, B, now)
    ensures UnlockedCount(A) <= UnlockedCount(B)
    ensures (forall i :: 0 <= i < |A| ==> A[i].points >= 0) ==> TotalPoints(A) <= TotalPoints(B)
    decreases |A|
  {
    if A != [] {
      assert Follows(A[0], B[0], now);
      assert Fixed(A[0]).points == A[0].points && Fixed(B[0]).points == B[0].points;
      assert FollowsAll(A[1..], B[1..], now) by {
        forall i | 0 <= i < |A| - 1 ensures Follows(A[1..][i], B[1..][i], now) {
          assert Follows(A[i + 1], B[i + 1], now);
        }
      }
      StatsNeverDrop(A[1..], B[1..], now);
    }
  }

  /** So the statistics never go down when `checkAchievements` runs. */
  lemma CheckNeverLowersStats(A: seq<Achievement>, counters: seq<CounterModel.Counter>,
                              categories: seq<CategoryModel.Category>, now: Date)
    ensures UnlockedCount(A) <= UnlockedCount(CheckAll(A, counters, categories, now))
    ensures (forall i :: 0 <= i < |A| ==> A[i].points >= 0) ==>
      TotalPoints(A) <= TotalPoints(CheckAll(A, counters, categories, now))
  {
    StatsNeverDrop(A, CheckAll(A, counters, categories, now), now);
  }
}
