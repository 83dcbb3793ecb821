/** `_max_disjoint_intervals` (log_parser.py): the events a task's unfit resources performed
    are grouped into chains of non-overlapping intervals, each chain becoming one joint
    resource. The argument is sorted in place by completion time; then a greedy pass keeps
    every interval that starts at or after the completion of the last kept one, and the pass
    is repeated on what it discarded until it keeps a single interval or discards nothing. */
module LogIntervals {
  import opened Wrappers
  import opened Records

  /** One interval can follow the other in a chain. */
  predicate Follows(prev: TaskEvent, next: TaskEvent) {
    next.startedAt >= prev.completedAt
  }

  predicate SortedByCompletion(s: seq<TaskEvent>) {
    forall i, j :: 0 <= i < j < |s| ==> s[i].completedAt <= s[j].completedAt
  }

  /** Every interval starts at or after the completion of the one before it. */
  predicate IsChain(s: seq<TaskEvent>) {
    forall i :: 0 < i < |s| ==> Follows(s[i - 1], s[i])
  }

  predicate PositiveDurations(s: seq<TaskEvent>) {
    forall i :: 0 <= i < |s| ==> s[i].startedAt < s[i].completedAt
  }

  function Flatten(groups: seq<seq<TaskEvent>>): seq<TaskEvent> {
    if groups == [] then [] else groups[0] + Flatten(groups[1..])
  }

  // ---------------------------------------------------------------------------------------
  // The stable sort by completion time

  /** Where `x` goes in `s`: scanning from the end, past every interval that completes
      strictly after it. */
  function InsertionPoint(s: seq<TaskEvent>, x: TaskEvent): (k: nat)
    ensures k <= |s|
    decreases |s|
  {
    if s != [] && s[|s| - 1].completedAt > x.completedAt then InsertionPoint(s[..|s| - 1], x) else |s|
  }

  /** `x` placed after the last interval of `s` that completes no later than it. */
  function Insert(s: seq<TaskEvent>, x: TaskEvent): seq<TaskEvent> {
    var k := InsertionPoint(s, x);
    s[..k] + ([x] + s[k..])
  }

  /** Sorting by completion time, each interval inserted in turn after all that complete
      no later than it: Python's stable `list.sort`. */
  function StableSort(s: seq<TaskEvent>): seq<TaskEvent> {
    if s == [] then [] else Insert(StableSort(s[..|s| - 1]), s[|s| - 1])
  }

  /** `x` lands just after an interval that completes no later than it, and just before
      the intervals that complete strictly after it. */
  lemma {:induction false} InsertionPointSplits(s: seq<TaskEvent>, x: TaskEvent)
    ensures forall m :: InsertionPoint(s, x) <= m < |s| ==> s[m].completedAt > x.completedAt
    ensures InsertionPoint(s, x) > 0 ==> s[InsertionPoint(s, x) - 1].completedAt <= x.completedAt
    decreases |s|
  {
    if s != [] && s[|s| - 1].completedAt > x.completedAt {
      var init := s[..|s| - 1];
      InsertionPointSplits(init, x);
      var k := InsertionPoint(init, x);
      assert forall m :: k <= m < |init| ==> s[m] == init[m];
      assert k > 0 ==> s[k - 1] == init[k - 1];
    }
  }

  /** Intervals that all complete after `x` do not move where `x` goes. */
  lemma {:induction false} InsertionPointPastGreater(p: seq<TaskEvent>, t: seq<TaskEvent>, x: TaskEvent)
    requires forall m :: 0 <= m < |t| ==> t[m].completedAt > x.completedAt
    ensures InsertionPoint(p + t, x) == InsertionPoint(p, x)
    decreases |t|
  {
    if t == [] {
      assert p + t == p;
    } else {
      var init := t[..|t| - 1];
      assert (p + t)[..|p + t| - 1] == p + init;
      InsertionPointPastGreater(p, init, x);
    }
  }

  /** Intervals that all complete after `x` stay behind it. */
  lemma InsertPastGreater(p: seq<TaskEvent>, t: seq<TaskEvent>, x: TaskEvent)
    requires forall m :: 0 <= m < |t| ==> t[m].completedAt > x.completedAt
    ensures Insert(p + t, x) == Insert(p, x) + t
  {
    InsertionPointPastGreater(p, t, x);
    var k := InsertionPoint(p, x);
    SliceAppend(p, t, k);
    AppendAssoc(p[..k], [x] + p[k..], t);
    AppendAssoc([x], p[k..], t);
  }

  lemma SliceAppend<T>(p: seq<T>, t: seq<T>, k: int)
    requires 0 <= k <= |p|
    ensures (p + t)[..k] == p[..k] && (p + t)[k..] == p[k..] + t
  {
  }

  lemma AppendAssoc<T>(a: seq<T>, b: seq<T>, c: seq<T>)
    ensures a + b + c == a + (b + c)
  {
  }

  /** The intervals of `s` that complete at `c`, in the order of `s`. */
  function Tied(s: seq<TaskEvent>, c: int): seq<TaskEvent> {
    if s == [] then [] else (if s[0].completedAt == c then [s[0]] else []) + Tied(s[1..], c)
  }

  lemma {:induction false} TiedAppend(a: seq<TaskEvent>, b: seq<TaskEvent>, c: int)
    ensures Tied(a + b, c) == Tied(a, c) + Tied(b, c)
    decreases |a|
  {
    if a != [] {
      assert (a + b)[1..] == a[1..] + b;
      TiedAppend(a[1..], b, c);
    } else {
      assert a + b == b;
    }
  }

  /** No interval from `k` on completes at `c` when all of them complete after it. */
  lemma {:induction false} TiedNone(s: seq<TaskEvent>, k: int, c: int)
    requires 0 <= k <= |s| && forall m :: k <= m < |s| ==> s[m].completedAt > c
    ensures Tied(s[k..], c) == []
    decreases |s| - k
  {
    if k < |s| {
      assert s[k..][0] == s[k] && s[k..][1..] == s[k + 1..];
      TiedNone(s, k + 1, c);
    }
  }

  lemma TiedSingle(x: TaskEvent, c: int)
    ensures Tied([x], c) == if x.completedAt == c then [x] else []
  {
    assert [x][1..] == [];
  }

  /** Inserting `x` adds it after the intervals that tie with it. */
  lemma InsertKeepsTies(sorted: seq<TaskEvent>, x: TaskEvent, c: int)
    ensures Tied(Insert(sorted, x), c) == Tied(sorted, c) + Tied([x], c)
  {
    var k := InsertionPoint(sorted, x);
    InsertionPointSplits(sorted, x);
    var p, t := sorted[..k], sorted[k..];
    var before, single, after := Tied(p, c), Tied([x], c), Tied(t, c);
    TakeDrop(sorted, k);
    TiedAppend(p, t, c);
    assert Tied(sorted, c) == before + after;
    TiedAppend(p, [x] + t, c);
    TiedAppend([x], t, c);
    assert Tied(Insert(sorted, x), c) == before + (single + after);
    TiedSingle(x, c);
    if x.completedAt == c {
      TiedNone(sorted, k, c);
      assert after == [];
      assert single + after == single && before + after == before;
    } else {
      assert single == [];
      assert single + after == after && before + after + single == before + after;
    }
  }

  /** Stability: the intervals sharing any one completion time come out in their input order. */
  lemma {:induction false} StableSortKeepsTies(s: seq<TaskEvent>, c: int)
    ensures Tied(StableSort(s), c) == Tied(s, c)
    decreases |s|
  {
    if s != [] {
      var init, x := s[..|s| - 1], s[|s| - 1];
      StableSortKeepsTies(init, c);
      InsertKeepsTies(StableSort(init), x, c);
      assert init + [x] == s;
      TiedAppend(init, [x], c);
    }
  }

  /** Inserting into a sorted list keeps it sorted. */
  lemma InsertSorted(s: seq<TaskEvent>, x: TaskEvent)
    requires SortedByCompletion(s)
    ensures SortedByCompletion(Insert(s, x))
  {
    InsertionPointSplits(s, x);
    var k := InsertionPoint(s, x);
    var p, t := s[..k], s[k..];
    var r := Insert(s, x);
    assert forall m :: 0 <= m < k ==> p[m].completedAt <= x.completedAt by {
      forall m | 0 <= m < k ensures p[m].completedAt <= x.completedAt {
        assert p[m] == s[m] && s[k - 1] == p[k - 1];
      }
    }
    forall m, n | 0 <= m < n < |r| ensures r[m].completedAt <= r[n].completedAt {
      if n < k {
        assert r[m] == s[m] && r[n] == s[n];
      } else if m < k {
        assert r[m] == p[m];
        if n > k {
          assert r[n] == s[n - 1];
        }
      } else if m > k {
        assert r[m] == s[m - 1] && r[n] == s[n - 1];
      } else {
        assert r[n] == s[n - 1];
      }
    }
  }

  lemma InsertPermutes(s: seq<TaskEvent>, x: TaskEvent)
    ensures multiset(Insert(s, x)) == multiset(s) + multiset{x}
  {
    var k := InsertionPoint(s, x);
    assert s == s[..k] + s[k..];
  }

  /** The stable sort sorts, and keeps every interval. */
  lemma {:induction false} StableSortSorts(s: seq<TaskEvent>)
    ensures SortedByCompletion(StableSort(s))
    ensures multiset(StableSort(s)) == multiset(s)
    decreases |s|
  {
    if s != [] {
      var init := s[..|s| - 1];
      StableSortSorts(init);
      InsertSorted(StableSort(init), s[|s| - 1]);
      InsertPermutes(StableSort(init), s[|s| - 1]);
      assert init + [s[|s| - 1]] == s;
    }
  }

  lemma StableSortSingle(x: TaskEvent)
    ensures StableSort([x]) == [x]
  {
    assert [x][..0] == [];
  }

  // ---------------------------------------------------------------------------------------
  // Sorting the argument in place

  /** `interval_list.sort(key=completed_at)`, as an insertion sort on the caller's array. */
  method SortByCompletion(a: array<TaskEvent>)
    modifies a
    ensures a[..] == StableSort(old(a[..]))
    ensures SortedByCompletion(a[..])
    ensures multiset(a[..]) == multiset(old(a[..]))
  {
    ghost var s0 := a[..];
    for i := 0 to a.Length
      invariant a[..i] == StableSort(s0[..i])
      invariant a[i..] == s0[i..]
    {
      assert s0[..i + 1][..i] == s0[..i] && s0[..i + 1][i] == s0[i] == a[i];
      InsertLast(a, i);
    }
    assert a[..a.Length] == a[..];
    assert s0[..a.Length] == s0;
    StableSortSorts(s0);
  }

  /** Moves `a[i]` left past the greater completion times before it. */
  method InsertLast(a: array<TaskEvent>, i: int)
    requires 0 <= i < a.Length
    modifies a
    ensures a[..i + 1] == Insert(old(a[..i]), old(a[i]))
    ensures a[i + 1..] == old(a[i + 1..])
  {
    ghost var s0 := a[..];
    var j := i;
    while j > 0 && a[j - 1].completedAt > a[j].completedAt
      invariant 0 <= j <= i
      invariant Shifted(a[..], s0, j, i)
    {
      ghost var s := a[..];
      ShiftedSwap(s, s0, j, i);
      a[j - 1], a[j] := a[j], a[j - 1];
      assert a[..] == s[j - 1 := s[j]][j := s[j - 1]];
      j := j - 1;
    }
    ShiftedDone(a[..], s0, j, i);
  }

  /** `s0[i]` has moved to `j`, with `s0[j..i]`, which all complete after it, one place to
      its right, and the rest of `s0` in place. */
  predicate Shifted(s: seq<TaskEvent>, s0: seq<TaskEvent>, j: int, i: int)
    requires 0 <= j <= i < |s0|
  {
    && |s| == |s0| && s[j] == s0[i]
    && (forall m :: 0 <= m < j ==> s[m] == s0[m])
    && (forall m :: j < m <= i ==> s[m] == s0[m - 1])
    && (forall m :: i < m < |s| ==> s[m] == s0[m])
    && (forall m :: j <= m < i ==> s0[m].completedAt > s0[i].completedAt)
  }

  lemma ShiftedSwap(s: seq<TaskEvent>, s0: seq<TaskEvent>, j: int, i: int)
    requires 0 < j <= i < |s0| && Shifted(s, s0, j, i) && s[j - 1].completedAt > s[j].completedAt
    ensures Shifted(s[j - 1 := s[j]][j := s[j - 1]], s0, j - 1, i)
  {
  }

  /** Once `s0[i]` stops, the prefix is `s0[..i]` with it inserted. */
  lemma ShiftedDone(s: seq<TaskEvent>, s0: seq<TaskEvent>, j: int, i: int)
    requires 0 <= j <= i < |s0| && Shifted(s, s0, j, i)
    requires j == 0 || s[j - 1].completedAt <= s[j].completedAt
    ensures s[..i + 1] == Insert(s0[..i], s0[i])
    ensures s[i + 1..] == s0[i + 1..]
  {
    var x := s0[i];
    var p, t := s0[..j], s0[j..i];
    MovedBack(s, s0, j, i);
    assert InsertionPoint(p, x) == |p|;
    Whole(p);
    assert [x] + p[|p|..] == [x];
    assert Insert(p, x) == p + [x];
    assert forall m :: 0 <= m < |t| ==> t[m] == s0[j + m];
    InsertPastGreater(p, t, x);
    SliceJoin(s0, j, i);
  }

  /** The shape `Shifted` describes, as slices. */
  lemma MovedBack<T>(s: seq<T>, s0: seq<T>, j: int, i: int)
    requires 0 <= j <= i < |s0| && |s| == |s0| && s[j] == s0[i]
    requires forall m :: 0 <= m < j ==> s[m] == s0[m]
    requires forall m :: j < m <= i ==> s[m] == s0[m - 1]
    requires forall m :: i < m < |s| ==> s[m] == s0[m]
    ensures s[..i + 1] == s0[..j] + [s0[i]] + s0[j..i]
    ensures s[i + 1..] == s0[i + 1..]
  {
    var r := s0[..j] + [s0[i]] + s0[j..i];
    assert forall m :: 0 <= m <= i ==> s[m] == r[m];
  }

  lemma TakeDrop<T>(s: seq<T>, k: int)
    requires 0 <= k <= |s|
    ensures s[..k] + s[k..] == s
  {
  }

  lemma Whole<T>(p: seq<T>)
    ensures p[..|p|] == p && p[|p|..] == []
  {
  }

  lemma SliceJoin<T>(s: seq<T>, j: int, i: int)
    requires 0 <= j <= i <= |s|
    ensures s[..j] + s[j..i] == s[..i]
  {
  }

  // ---------------------------------------------------------------------------------------
  // The greedy pass and the rounds, as functions

  /** One greedy pass over `rest`, the last kept interval having completed at `currentLast`:
      the intervals kept and the intervals discarded, each in the order of `rest`. */
  function PassFrom(rest: seq<TaskEvent>, currentLast: int): (r: (seq<TaskEvent>, seq<TaskEvent>))
    ensures |r.0| + |r.1| == |rest|
  {
    if rest == [] then ([], [])
    else if rest[0].startedAt >= currentLast then
        var p := PassFrom(rest[1..], rest[0].completedAt);
        ([rest[0]] + p.0, p.1)
      else
        var p := PassFrom(rest[1..], currentLast);
        (p.0, [rest[0]] + p.1)
  }

  /** The chain one pass extracts from a non-empty list, and what it discards. */
  function Pass(list: seq<TaskEvent>): (r: (seq<TaskEvent>, seq<TaskEvent>))
    requires |list| > 0
    ensures |r.0| >= 1 && |r.0| + |r.1| == |list|
  {
    var p := PassFrom(list[1..], list[0].completedAt);
    ([list[0]] + p.0, p.1)
  }

  /** The pass halts the rounds when it keeps one interval or discards nothing. */
  predicate Halts(p: (seq<TaskEvent>, seq<TaskEvent>)) {
    |p.0| == 1 || |p.1| == 0
  }

  /** The chains of the rounds that start on `list`; singleton chains are not kept. */
  function Groups(list: seq<TaskEvent>): seq<seq<TaskEvent>>
    requires |list| > 0
    decreases |list|
  {
    var p := Pass(list);
    (if |p.0| > 1 then [p.0] else []) + (if Halts(p) then [] else Groups(p.1))
  }

  /** The intervals the rounds on `list` put in no chain. */
  function Dropped(list: seq<TaskEvent>): seq<TaskEvent>
    requires |list| > 0
    decreases |list|
  {
    var p := Pass(list);
    if |p.0| == 1 then p.0 + p.1 else if |p.1| == 0 then [] else Dropped(p.1)
  }

  /** The result of `_max_disjoint_intervals` for the list as sorted. */
  function MaxDisjoint(sorted: seq<TaskEvent>): seq<seq<TaskEvent>>
    requires |sorted| > 0
  {
    if |sorted| == 1 then [sorted] else Groups(sorted)
  }

  // ---------------------------------------------------------------------------------------
  // The method

  /** `_max_disjoint_intervals(interval_list)`. The caller (discover_resource_calendars)
      only calls it on a non-empty list, and an empty one would fail on `interval_list[0]`. */
  method MaxDisjointIntervals(intervals: array<TaskEvent>) returns (groups: seq<seq<TaskEvent>>)
    requires intervals.Length > 0
    modifies intervals
    ensures intervals.Length == 1 ==> intervals[..] == old(intervals[..]) && groups == [intervals[..]]
    ensures SortedByCompletion(intervals[..])
    ensures multiset(intervals[..]) == multiset(old(intervals[..]))
    ensures groups == MaxDisjoint(intervals[..])
    ensures intervals[..] == StableSort(old(intervals[..]))
    ensures groups == MaxDisjoint(StableSort(old(intervals[..])))
  {
    ghost var input := intervals[..];
    if intervals.Length == 1 {
      assert input == [intervals[0]];
      StableSortSingle(intervals[0]);
      return [intervals[..]];
    }
    SortByCompletion(intervals);
    var intervalList := intervals[..];
    ghost var sorted := intervalList;
    assert sorted == StableSort(input);
    groups := [];
    while true
      invariant |intervalList| > 0
      invariant groups + Groups(intervalList) == Groups(sorted)
      invariant intervals[..] == sorted
      decreases |intervalList|
    {
      var maxSet, discardedList := GreedyPass(intervalList);
      assert Groups(intervalList) == (if |maxSet| > 1 then [maxSet] else []) +
        (if Halts((maxSet, discardedList)) then [] else Groups(discardedList));
      if |maxSet| > 1 {
        groups := groups + [maxSet];
      }
      if |maxSet| == 1 || |discardedList| == 0 {
        break;
      }
      assert groups + Groups(discardedList) == Groups(sorted);
      intervalList := discardedList;
    }
    assert intervals[..] == sorted;
  }

  /** The body of the rounds loop: one pass over `intervalList`. */
  method GreedyPass(intervalList: seq<TaskEvent>) returns (maxSet: seq<TaskEvent>, discardedList: seq<TaskEvent>)
    requires |intervalList| > 0
    ensures (maxSet, discardedList) == Pass(intervalList)
  {
    maxSet, discardedList := [intervalList[0]], [];
    var currentLast := intervalList[0].completedAt;
    for i := 1 to |intervalList|
      invariant maxSet + PassFrom(intervalList[i..], currentLast).0 == Pass(intervalList).0
      invariant discardedList + PassFrom(intervalList[i..], currentLast).1 == Pass(intervalList).1
    {
      assert intervalList[i..][0] == intervalList[i] && intervalList[i..][1..] == intervalList[i + 1..];
      if intervalList[i].startedAt >= currentLast {
        maxSet := maxSet + [intervalList[i]];
        currentLast := intervalList[i].completedAt;
      } else {
        discardedList := discardedList + [intervalList[i]];
      }
    }
    assert intervalList[|intervalList|..] == [];
    assert maxSet == Pass(intervalList).0 && discardedList == Pass(intervalList).1;
  }

  // ---------------------------------------------------------------------------------------
  // What the rounds promise

  /** A pass splits its input: each interval is kept or discarded, exactly once. */
  lemma {:induction false} PassFromSplits(rest: seq<TaskEvent>, currentLast: int)
    ensures multiset(PassFrom(rest, currentLast).0) + multiset(PassFrom(rest, currentLast).1) == multiset(rest)
  {
    if rest != [] {
      assert rest == [rest[0]] + rest[1..];
      if rest[0].startedAt >= currentLast {
        PassFromSplits(rest[1..], rest[0].completedAt);
      } else {
        PassFromSplits(rest[1..], currentLast);
      }
    }
  }

  lemma PassSplits(list: seq<TaskEvent>)
    requires |list| > 0
    ensures multiset(Pass(list).0) + multiset(Pass(list).1) == multiset(list)
  {
    PassFromSplits(list[1..], list[0].completedAt);
    assert list == [list[0]] + list[1..];
  }

  /** The kept intervals follow one another from `currentLast` on. */
  lemma {:induction false} PassFromChain(rest: seq<TaskEvent>, currentLast: int)
    ensures var k := PassFrom(rest, currentLast).0;
      IsChain(k) && (|k| > 0 ==> k[0].startedAt >= currentLast)
  {
    if rest != [] {
      if rest[0].startedAt >= currentLast {
        PassFromChain(rest[1..], rest[0].completedAt);
      } else {
        PassFromChain(rest[1..], currentLast);
      }
    }
  }

  /** Whatever a pass keeps or discards comes from its input. */
  lemma {:induction false} PassFromMembers(rest: seq<TaskEvent>, currentLast: int)
    ensures forall e | e in PassFrom(rest, currentLast).0 :: e in rest
    ensures forall e | e in PassFrom(rest, currentLast).1 :: e in rest
  {
    if rest != [] {
      var next := if rest[0].startedAt >= currentLast then rest[0].completedAt else currentLast;
      PassFromMembers(rest[1..], next);
    }
  }

  lemma SortedCons(x: TaskEvent, t: seq<TaskEvent>)
    requires SortedByCompletion(t) && forall e | e in t :: x.completedAt <= e.completedAt
    ensures SortedByCompletion([x] + t)
  {
    forall i, j | 0 <= i < j < |[x] + t| ensures ([x] + t)[i].completedAt <= ([x] + t)[j].completedAt {
      assert ([x] + t)[j] == t[j - 1];
      if i > 0 { assert ([x] + t)[i] == t[i - 1]; }
    }
  }

  /** A pass keeps and discards sub-sequences of its input, so both stay sorted by completion. */
  lemma {:induction false} PassFromSorted(rest: seq<TaskEvent>, currentLast: int)
    requires SortedByCompletion(rest)
    ensures SortedByCompletion(PassFrom(rest, currentLast).0)
    ensures SortedByCompletion(PassFrom(rest, currentLast).1)
  {
    if rest != [] {
      var next := if rest[0].startedAt >= currentLast then rest[0].completedAt else currentLast;
      assert SortedByCompletion(rest[1..]);
      PassFromSorted(rest[1..], next);
      PassFromMembers(rest[1..], next);
      var p := PassFrom(rest[1..], next);
      forall e | e in rest[1..] ensures rest[0].completedAt <= e.completedAt {
        var k :| 0 <= k < |rest[1..]| && rest[1..][k] == e;
        assert rest[k + 1] == e;
      }
      SortedCons(rest[0], p.0);
      SortedCons(rest[0], p.1);
    }
  }

  /** When a pass keeps nothing, every interval starts before `currentLast` and all are discarded. */
  lemma {:induction false} PassFromNoneKept(rest: seq<TaskEvent>, currentLast: int)
    requires PassFrom(rest, currentLast).0 == []
    ensures PassFrom(rest, currentLast).1 == rest
    ensures forall i :: 0 <= i < |rest| ==> rest[i].startedAt < currentLast
  {
    if rest != [] {
      PassFromNoneKept(rest[1..], currentLast);
    }
  }

  lemma PassProperties(list: seq<TaskEvent>)
    requires |list| > 0 && SortedByCompletion(list)
    ensures IsChain(Pass(list).0) && SortedByCompletion(Pass(list).0) && SortedByCompletion(Pass(list).1)
  {
    PassFromChain(list[1..], list[0].completedAt);
    PassFromSorted(list[1..], list[0].completedAt);
    PassFromMembers(list[1..], list[0].completedAt);
    var p := PassFrom(list[1..], list[0].completedAt);
    forall e | e in p.0 ensures list[0].completedAt <= e.completedAt {
      var k :| 0 <= k < |list[1..]| && list[1..][k] == e;
      assert list[k + 1] == e;
    }
    SortedCons(list[0], p.0);
  }

  /** Every group is a chain of at least two intervals, in completion order. */
  lemma {:induction false} GroupsAreChains(list: seq<TaskEvent>)
    requires |list| > 0 && SortedByCompletion(list)
    ensures forall g | g in Groups(list) :: |g| >= 2 && IsChain(g) && SortedByCompletion(g)
    decreases |list|
  {
    var p := Pass(list);
    PassProperties(list);
    if !Halts(p) {
      GroupsAreChains(p.1);
    }
  }

  /** The groups and the dropped intervals together are exactly the input, each interval
      once: groups are disjoint and every grouped interval comes from the input. */
  lemma {:induction false} GroupsPartition(list: seq<TaskEvent>)
    requires |list| > 0
    ensures multiset(Flatten(Groups(list))) + multiset(Dropped(list)) == multiset(list)
    decreases |list|
  {
    var p := Pass(list);
    PassSplits(list);
    if |p.0| == 1 {
      assert Groups(list) == [];
    } else if |p.1| == 0 {
      assert Groups(list) == [p.0];
      assert Flatten([p.0]) == p.0 + Flatten([]);
    } else {
      var rest := Groups(p.1);
      assert Groups(list) == [p.0] + rest;
      assert ([p.0] + rest)[1..] == rest;
      GroupsPartition(p.1);
    }
  }

  /** The rounds end by dropping either nothing, or a pass that kept a single interval
      together with everything it discarded. When all intervals last a positive time, no two
      dropped intervals could have been chained together, so the dropped intervals could not
      have formed a further group. */
  lemma {:induction false} DroppedCannotChain(list: seq<TaskEvent>)
    requires |list| > 0 && SortedByCompletion(list) && PositiveDurations(list)
    ensures forall i, j :: 0 <= i < |Dropped(list)| && 0 <= j < |Dropped(list)| && i != j ==>
      !Follows(Dropped(list)[i], Dropped(list)[j])
    decreases |list|
  {
    var p := Pass(list);
    PassProperties(list);
    if |p.0| == 1 {
      PassFromNoneKept(list[1..], list[0].completedAt);
      assert Dropped(list) == list;
      forall m | 0 < m < |list| ensures list[m].startedAt < list[0].completedAt {
        assert list[1..][m - 1] == list[m];
      }
      NoneFollowFirst(list);
    } else if |p.1| > 0 {
      DiscardedPositive(list);
      DroppedCannotChain(p.1);
    }
  }

  /** When every later interval starts before the first completes, no interval of a sorted
      list with positive durations can follow another. */
  lemma NoneFollowFirst(list: seq<TaskEvent>)
    requires |list| > 0 && SortedByCompletion(list) && PositiveDurations(list)
    requires forall m :: 0 < m < |list| ==> list[m].startedAt < list[0].completedAt
    ensures forall i, j :: 0 <= i < |list| && 0 <= j < |list| && i != j ==> !Follows(list[i], list[j])
  {
    forall i, j | 0 <= i < |list| && 0 <= j < |list| && i != j
      ensures !Follows(list[i], list[j])
    {
      assert list[0].completedAt <= list[i].completedAt;
      assert list[j].startedAt < list[0].completedAt;
    }
  }

  /** What a pass discards comes from its input, so it keeps positive durations. */
  lemma DiscardedPositive(list: seq<TaskEvent>)
    requires |list| > 0 && PositiveDurations(list)
    ensures PositiveDurations(Pass(list).1)
  {
    var p := Pass(list);
    var q := PassFrom(list[1..], list[0].completedAt);
    PassFromMembers(list[1..], list[0].completedAt);
    forall k | 0 <= k < |p.1| ensures p.1[k].startedAt < p.1[k].completedAt {
      var e := p.1[k];
      assert e in q.1;
      var m :| 0 <= m < |list[1..]| && list[1..][m] == e;
      assert list[m + 1] == e;
    }
  }

  /** With zero-length intervals, a completion-time tie can drop a chainable pair:
      `(10, 10)` and `(5, 10)`, in that order, give no group although the second can be
      followed by the first. */
  lemma ZeroLengthTieDropsPair()
    ensures var x := TaskEvent("c", "t", "r", None, 10, 10);
      var y := TaskEvent("c", "t", "r", None, 5, 10);
      MaxDisjoint([x, y]) == [] && Follows(y, x)
  {
    var x := TaskEvent("c", "t", "r", None, 10, 10);
    var y := TaskEvent("c", "t", "r", None, 5, 10);
    assert [x, y][1..] == [y] && [y][1..] == [];
    assert PassFrom([], 10) == ([], []);
    assert PassFrom([y], 10).1 == [y];
    assert PassFrom([y], 10) == ([], [y]);
  }

  /** Intervals are dropped silently: `(5, 8)` and `(0, 10)` overlap, so both are dropped. */
  lemma OverlappingPairDropped()
    ensures var a := TaskEvent("c", "t", "r", None, 5, 8);
      var b := TaskEvent("c", "t", "r", None, 0, 10);
      MaxDisjoint([a, b]) == [] && Dropped([a, b]) == [a, b]
  {
    var a := TaskEvent("c", "t", "r", None, 5, 8);
    var b := TaskEvent("c", "t", "r", None, 0, 10);
    assert [a, b][1..] == [b] && [b][1..] == [];
    assert PassFrom([], 8) == ([], []);
    assert PassFrom([b], 8).1 == [b];
    assert PassFrom([b], 8) == ([], [b]);
  }
}
