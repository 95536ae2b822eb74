/** Sorting a habit list with the comparator `compareHabits(order)` builds.
    The host's `Array.prototype.sort` is replaced by an insertion sort that is
    specified only by its result: a permutation of the input in which every
    earlier habit compares no later than every later one. */
module HabitOrder {
  import opened HabitsApi

  /** Every earlier habit sorts no later than every later one. */
  predicate SortedBy(order: SortOrder, s: seq<Habit>)
  {
    forall i, j :: 0 <= i < j < |s| ==> Compare(order, s[i], s[j]) <= 0.0
  }

  lemma ConsSorted(order: SortOrder, x: Habit, t: seq<Habit>)
    requires SortedBy(order, t)
    requires forall y :: y in t ==> Compare(order, x, y) <= 0.0
    ensures SortedBy(order, [x] + t)
  {
    var s := [x] + t;
    forall i, j | 0 <= i < j < |s|
      ensures Compare(order, s[i], s[j]) <= 0.0
    {
      if i == 0 {
        assert s[j] == t[j - 1];
        assert s[j] in t;
      } else {
        assert s[i] == t[i - 1] && s[j] == t[j - 1];
      }
    }
  }

  lemma HeadFirst(order: SortOrder, s: seq<Habit>)
    requires SortedBy(order, s) && |s| > 0
    ensures forall y :: y in s[1..] ==> Compare(order, s[0], y) <= 0.0
  {
    forall y | y in s[1..]
      ensures Compare(order, s[0], y) <= 0.0
    {
      var k :| 0 <= k < |s[1..]| && s[1..][k] == y;
      assert s[k + 1] == y;
    }
  }

  /** Inserts h in front of the first habit it sorts no later than. */
  function Insert(order: SortOrder, h: Habit, s: seq<Habit>): (r: seq<Habit>)
    requires SortedBy(order, s)
    ensures SortedBy(order, r)
    ensures multiset(r) == multiset(s) + multiset{h}
  {
    if |s| == 0 then [h]
    else if Compare(order, h, s[0]) <= 0.0 then
      HeadFirst(order, s);
      assert forall y :: y in s[1..] ==> Compare(order, h, y) <= 0.0 by {
        forall y | y in s[1..]
          ensures Compare(order, h, y) <= 0.0
        {
          CompareTransitive(order, h, s[0], y);
        }
      }
      assert s == [s[0]] + s[1..];
      assert forall y :: y in s ==> y == s[0] || y in s[1..];
      ConsSorted(order, h, s);
      [h] + s
    else
      assert SortedBy(order, s[1..]) by {
        forall i, j | 0 <= i < j < |s[1..]|
          ensures Compare(order, s[1..][i], s[1..][j]) <= 0.0
        {
          assert s[1..][i] == s[i + 1] && s[1..][j] == s[j + 1];
        }
      }
      var tail := Insert(order, h, s[1..]);
      assert s == [s[0]] + s[1..];
      HeadFirst(order, s);
      CompareAntisymmetric(order, h, s[0]);
      assert forall y :: y in tail ==> Compare(order, s[0], y) <= 0.0 by {
        forall y | y in tail
          ensures Compare(order, s[0], y) <= 0.0
        {
          assert y in multiset(tail);
          assert y == h || y in multiset(s[1..]);
        }
      }
      ConsSorted(order, s[0], tail);
      [s[0]] + tail
  }

  /** The list ordered by `compareHabits(order)`. */
  function Sort(order: SortOrder, s: seq<Habit>): (r: seq<Habit>)
    ensures SortedBy(order, r)
    ensures multiset(r) == multiset(s)
  {
    if |s| == 0 then []
    else
      assert s == [s[0]] + s[1..];
      Insert(order, s[0], Sort(order, s[1..]))
  }

  /** A sorted list is ordered lexicographically by the reference key: for a
      priority order, by direction-adjusted priority and then ascending value. */
  lemma SortedIsKeyOrdered(order: SortOrder, s: seq<Habit>)
    requires SortedBy(order, s)
    ensures forall i, j :: 0 <= i < j < |s| ==> LexCompare(Key(order, s[i]), Key(order, s[j])) <= 0
  {
    forall i, j | 0 <= i < j < |s|
      ensures LexCompare(Key(order, s[i]), Key(order, s[j])) <= 0
    {
      assert Sign(Compare(order, s[i], s[j])) == LexCompare(Key(order, s[i]), Key(order, s[j]));
    }
  }

  /** Sorting by priority puts every strictly higher-priority habit (ascending)
      or strictly lower-priority habit (descending) ahead of the others. */
  lemma SortPriorityFirst(dir: SortDirection, s: seq<Habit>)
    ensures var r := Sort(SortOrder(ByPriority, dir), s);
      forall i, j :: 0 <= i < j < |r| ==>
        (if dir == Asc then r[i].priority >= r[j].priority else r[i].priority <= r[j].priority)
  {
    var r := Sort(SortOrder(ByPriority, dir), s);
    SortedIsKeyOrdered(SortOrder(ByPriority, dir), r);
  }
}
