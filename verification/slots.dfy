/**
  The day slots of a week plan (backend/planner.py, `generate_week`, first
  half): one full pass over the week for every 7 posts, plus a sample of
  distinct remainder days, sorted into Monday..Sunday order.

  Python's `//` and `%` round towards negative infinity. For the positive
  divisor 7 this is exactly Dafny's Euclidean `/` and `%`, so `n / 7` and
  `n % 7` below are the source's `n // 7` and `n % 7` for every integer `n`,
  negative ones included.
 */
module WeekSlots {

  /** The weekday names, in week order; a slot is an index into this list. */
  const DaysOfWeek: seq<string> := ["Monday", "Tuesday", "Wednesday", "Thursday", "Friday", "Saturday", "Sunday"]

  /** A position in `DaysOfWeek`. */
  type DayIndex = d: int | 0 <= d < 7

  /** Every day once, in week order. */
  const AllDays: seq<DayIndex> := [0, 1, 2, 3, 4, 5, 6]

  predicate Sorted(s: seq<int>) {
    forall i, j :: 0 <= i < j < |s| ==> s[i] <= s[j]
  }

  ghost predicate Distinct<T>(s: seq<T>) {
    forall i, j :: 0 <= i < j < |s| ==> s[i] != s[j]
  }

  function Max0(x: int): int {
    if x < 0 then 0 else x
  }

  /** The name of a slot's day. */
  function DayName(d: DayIndex): (name: string)
    ensures name in DaysOfWeek
  {
    DaysOfWeek[d]
  }

  /** `for _ in range(weeks): slots.extend(DAYS_OF_WEEK)`; a negative range runs no iteration. */
  function FullWeeks(weeks: int): (r: seq<DayIndex>)
    ensures |r| == 7 * Max0(weeks)
    ensures forall d: DayIndex :: multiset(r)[d] == Max0(weeks)
    decreases weeks
  {
    if weeks <= 0 then []
    else
      var rest := FullWeeks(weeks - 1);
      forall d: DayIndex
        ensures multiset(AllDays + rest)[d] == Max0(weeks)
      {
        AllDaysOnce(d);
      }
      AllDays + rest
  }

  /**
    `random.sample(pool, k)`: `k` successive choices without replacement.
    The draw oracle says which of the remaining elements is taken at each
    step; reducing it modulo the pool size makes every oracle a legal one.
   */
  function Sample(pool: seq<DayIndex>, k: nat, draw: nat -> nat, step: nat): (r: seq<DayIndex>)
    requires k <= |pool|
    requires Distinct(pool)
    ensures |r| == k
    ensures Distinct(r)
    ensures forall x :: x in r ==> x in pool
    decreases k
  {
    if k == 0 then []
    else
      var i := draw(step) % |pool|;
      var remaining := pool[..i] + pool[i + 1..];
      SpliceOthers(pool, i);
      var rest := Sample(remaining, k - 1, draw, step + 1);
      assert forall j :: 0 <= j < |rest| ==> rest[j] in remaining;
      [pool[i]] + rest
  }

  /** Places one slot into a sorted list of slots. */
  function Insert(x: DayIndex, s: seq<DayIndex>): (r: seq<DayIndex>)
    requires Sorted(s)
    ensures |r| == |s| + 1
    ensures Sorted(r)
    ensures multiset(r) == multiset(s) + multiset{x}
    ensures r[0] == x || (|s| > 0 && r[0] == s[0])
    decreases |s|
  {
    if |s| == 0 || x <= s[0] then
      ConsSorted(x, s);
      [x] + s
    else
      assert s == [s[0]] + s[1..];
      var rest := Insert(x, s[1..]);
      ConsSorted(s[0], rest);
      [s[0]] + rest
  }

  /** An element no larger than the head of a sorted list extends it to a sorted list. */
  lemma ConsSorted(x: int, s: seq<int>)
    requires Sorted(s)
    requires |s| > 0 ==> x <= s[0]
    ensures Sorted([x] + s)
  {
    var r := [x] + s;
    forall i, j | 0 <= i < j < |r|
      ensures r[i] <= r[j]
    {
      if i > 0 {
        assert r[i] == s[i - 1] && r[j] == s[j - 1];
      } else {
        assert r[j] == s[j - 1];
      }
    }
  }

  /** `slots.sort(key=DAYS_OF_WEEK.index)`: the slots in Monday..Sunday order. */
  function SortByDay(s: seq<DayIndex>): (r: seq<DayIndex>)
    ensures Sorted(r)
    ensures multiset(r) == multiset(s)
    decreases |s|
  {
    if |s| == 0 then []
    else
      assert s == s[..|s| - 1] + [s[|s| - 1]];
      Insert(s[|s| - 1], SortByDay(s[..|s| - 1]))
  }

  /** The remainder days: a sample of `n % 7` distinct days, none when the remainder is zero. */
  function RemainderDays(n: int, draw: nat -> nat): (r: seq<DayIndex>)
    ensures |r| == n % 7
    ensures Distinct(r)
  {
    if n % 7 > 0 then Sample(AllDays, n % 7, draw, 0) else []
  }

  /**
    The sorted slot list for `n` posts per week: the full weeks and the
    remainder days, put into Monday..Sunday order.
   */
  function Slots(n: int, draw: nat -> nat): (r: seq<DayIndex>)
    ensures Sorted(r)
    ensures multiset(r) == multiset(FullWeeks(n / 7) + RemainderDays(n, draw))
  {
    SortByDay(FullWeeks(n / 7) + RemainderDays(n, draw))
  }

  /** There is one slot per post for every `n >= 0`; a negative `n` still yields `n % 7` slots. */
  lemma SlotCount(n: int, draw: nat -> nat)
    ensures |Slots(n, draw)| == 7 * Max0(n / 7) + n % 7
    ensures n >= 0 ==> |Slots(n, draw)| == n
    ensures n < 0 ==> |Slots(n, draw)| == n % 7
  {
    var r := Slots(n, draw);
    var unsorted := FullWeeks(n / 7) + RemainderDays(n, draw);
    assert |r| == |multiset(r)| == |multiset(unsorted)| == |unsorted|;
  }

  /** Each day holds `n / 7` slots (none when that is negative), or one more when the remainder sample picked it. */
  lemma DayBalance(n: int, draw: nat -> nat, d: DayIndex)
    ensures multiset(Slots(n, draw))[d] == Max0(n / 7) + (if d in RemainderDays(n, draw) then 1 else 0)
    ensures Max0(n / 7) <= multiset(Slots(n, draw))[d] <= Max0(n / 7) + 1
  {
    var extra := RemainderDays(n, draw);
    DistinctOccursOnce(extra, d);
    assert multiset(Slots(n, draw)) == multiset(FullWeeks(n / 7)) + multiset(extra);
  }

  /** Each day occurs once in the week. */
  lemma AllDaysOnce(d: DayIndex)
    ensures multiset(AllDays)[d] == 1
  {
    assert forall j :: 0 <= j < 7 ==> AllDays[j] == j;
    assert AllDays == AllDays[..d] + [d] + AllDays[d + 1..];
    assert d !in AllDays[..d] && d !in AllDays[d + 1..];
  }

  /** Cutting position `i` out of a list without repetitions leaves the other elements, still without repetitions. */
  lemma SpliceOthers(pool: seq<DayIndex>, i: int)
    requires 0 <= i < |pool|
    requires Distinct(pool)
    ensures Distinct(pool[..i] + pool[i + 1..])
    ensures forall x :: x in pool[..i] + pool[i + 1..] ==> x in pool && x != pool[i]
  {
    var remaining := pool[..i] + pool[i + 1..];
    assert forall j :: 0 <= j < |remaining| ==> remaining[j] == (if j < i then pool[j] else pool[j + 1]);
  }

  /** In a list without repetitions every value occurs at most once. */
  lemma {:induction false} DistinctOccursOnce<T>(s: seq<T>, x: T)
    requires Distinct(s)
    ensures multiset(s)[x] <= 1
    decreases |s|
  {
    if |s| > 0 {
      assert s == [s[0]] + s[1..];
      DistinctOccursOnce(s[1..], x);
      if x == s[0] {
        assert x !in s[1..];
      }
    }
  }

  /**
    A sorted rearrangement of a list is unique, so the insertion sort above
    yields the same list as Python's `sort` with the day-index key.
   */
  lemma {:induction false} SortedPermutationUnique(a: seq<int>, b: seq<int>)
    requires Sorted(a) && Sorted(b)
    requires multiset(a) == multiset(b)
    ensures a == b
    decreases |a|
  {
    PeelHeads(a, b);
    if |a| > 0 {
      SortedPermutationUnique(a[1..], b[1..]);
      assert a == [a[0]] + a[1..] == [b[0]] + b[1..] == b;
    }
  }

  /** Two sorted rearrangements of one list have the same length, the same head, and sorted rearrangements of one list as tails. */
  lemma PeelHeads(a: seq<int>, b: seq<int>)
    requires Sorted(a) && Sorted(b)
    requires multiset(a) == multiset(b)
    ensures |a| == |b|
    ensures |a| > 0 ==> a[0] == b[0] && Sorted(a[1..]) && Sorted(b[1..]) && multiset(a[1..]) == multiset(b[1..])
  {
    assert |a| == |multiset(a)| == |multiset(b)| == |b|;
    if |a| > 0 {
      assert b[0] in multiset(b) && a[0] in multiset(a);
      SortedHeadIsLeast(a, b[0]);
      SortedHeadIsLeast(b, a[0]);
      HeadAndTail(a);
      HeadAndTail(b);
    }
  }

  /** The head of a sorted list is at most every element of the list. */
  lemma SortedHeadIsLeast(s: seq<int>, x: int)
    requires Sorted(s) && x in multiset(s)
    ensures |s| > 0 && s[0] <= x
  {
    var i :| 0 <= i < |s| && s[i] == x;
  }

  /** Dropping the head of a list removes one occurrence of it and keeps the rest sorted. */
  lemma HeadAndTail(s: seq<int>)
    requires |s| > 0
    ensures multiset(s[1..]) == multiset(s) - multiset{s[0]}
    ensures Sorted(s) ==> Sorted(s[1..])
  {
    assert s == [s[0]] + s[1..];
  }
}
