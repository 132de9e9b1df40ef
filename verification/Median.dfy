/** The bounded window of recent durations and its median (internal/schedule/scheduler.go). */
module Median {

  /** Append and, past the cap, forget the oldest entry. */
  function Push(window: seq<int>, d: int, cap: nat): seq<int> {
    var grown := window + [d];
    if |grown| > cap then grown[1..] else grown
  }

  function PushAll(ds: seq<int>, cap: nat): seq<int> {
    if ds == [] then [] else Push(PushAll(ds[..|ds| - 1], cap), ds[|ds| - 1], cap)
  }

  /** After any number of recordings the window is the last min(cap, k) of them, oldest first. */
  lemma {:induction false} WindowIsSuffix(ds: seq<int>, cap: nat)
    requires cap >= 1
    ensures PushAll(ds, cap) == if |ds| <= cap then ds else ds[|ds| - cap..]
  {
    if ds != [] {
      WindowIsSuffix(ds[..|ds| - 1], cap);
    }
  }

  ghost predicate IsSorted(s: seq<int>) {
    forall i, j :: 0 <= i < j < |s| ==> s[i] <= s[j]
  }

  function Insert(x: int, s: seq<int>): seq<int> {
    if s == [] || x <= s[0] then [x] + s else [s[0]] + Insert(x, s[1..])
  }

  function Sort(s: seq<int>): (r: seq<int>)
    ensures |r| == |s|
  {
    if s == [] then [] else
      InsertKeepsEntries(s[0], Sort(s[1..]));
      Insert(s[0], Sort(s[1..]))
  }

  lemma {:induction false} InsertKeepsEntries(x: int, s: seq<int>)
    ensures |Insert(x, s)| == |s| + 1
    ensures multiset(Insert(x, s)) == multiset(s) + multiset{x}
  {
    if s != [] && s[0] < x {
      InsertKeepsEntries(x, s[1..]);
      assert s == [s[0]] + s[1..];
    }
  }

  lemma {:induction false} InsertSorts(x: int, s: seq<int>)
    requires IsSorted(s)
    ensures IsSorted(Insert(x, s))
    ensures s != [] ==> Insert(x, s)[0] == (if x <= s[0] then x else s[0])
    ensures s == [] ==> Insert(x, s) == [x]
  {
    if s != [] && s[0] < x {
      InsertSorts(x, s[1..]);
      var t := Insert(x, s[1..]);
      InsertKeepsEntries(x, s[1..]);
      assert s[0] <= t[0];
      assert forall k :: 0 <= k < |t| ==> t[0] <= t[k];
    }
  }

  lemma {:induction false} SortSorts(s: seq<int>)
    ensures IsSorted(Sort(s)) && multiset(Sort(s)) == multiset(s)
  {
    if s != [] {
      SortSorts(s[1..]);
      InsertKeepsEntries(s[0], Sort(s[1..]));
      InsertSorts(s[0], Sort(s[1..]));
      assert s == [s[0]] + s[1..];
    }
  }

  /** A sorted arrangement is unique, so the library's choice of sorting algorithm cannot matter. */
  lemma {:induction false} SortedUnique(a: seq<int>, b: seq<int>)
    requires IsSorted(a) && IsSorted(b) && multiset(a) == multiset(b)
    ensures a == b
  {
    assert |a| == |multiset(a)| && |b| == |multiset(b)|;
    if a != [] {
      SmallestFirst(a, b);
      SmallestFirst(b, a);
      assert a == [a[0]] + a[1..] && b == [b[0]] + b[1..];
      assert multiset(a[1..]) == multiset(a) - multiset{a[0]};
      SortedUnique(a[1..], b[1..]);
    }
  }

  lemma SmallestFirst(a: seq<int>, b: seq<int>)
    requires IsSorted(a) && a != [] && b != [] && multiset(a) == multiset(b)
    ensures a[0] <= b[0]
  {
    assert b[0] in multiset(a);
    var i :| 0 <= i < |a| && a[i] == b[0];
    assert a[0] <= a[i];
  }

  function MedianOf(window: seq<int>): int {
    if window == [] then 0 else Sort(window)[|window| / 2]
  }

  /** The median is a function of the multiset of durations: the order of completion is irrelevant. */
  lemma MedianIgnoresOrder(a: seq<int>, b: seq<int>)
    requires multiset(a) == multiset(b)
    ensures MedianOf(a) == MedianOf(b)
  {
    SortSorts(a);
    SortSorts(b);
    SortedUnique(Sort(a), Sort(b));
    assert |a| == |b|;
  }

  /** How many entries are at most m, and how many at least m. */
  function AtMost(s: seq<int>, m: int): nat {
    if s == [] then 0 else AtMost(s[1..], m) + (if s[0] <= m then 1 else 0)
  }

  function AtLeast(s: seq<int>, m: int): nat {
    if s == [] then 0 else AtLeast(s[1..], m) + (if s[0] >= m then 1 else 0)
  }

  lemma {:induction false} InsertCounts(x: int, s: seq<int>, m: int)
    ensures AtMost(Insert(x, s), m) == AtMost(s, m) + (if x <= m then 1 else 0)
    ensures AtLeast(Insert(x, s), m) == AtLeast(s, m) + (if x >= m then 1 else 0)
  {
    if s == [] || x <= s[0] {
      assert ([x] + s)[1..] == s;
    } else {
      InsertCounts(x, s[1..], m);
      assert ([s[0]] + Insert(x, s[1..]))[1..] == Insert(x, s[1..]);
    }
  }

  lemma {:induction false} SortCounts(s: seq<int>, m: int)
    ensures AtMost(Sort(s), m) == AtMost(s, m) && AtLeast(Sort(s), m) == AtLeast(s, m)
  {
    if s != [] {
      SortCounts(s[1..], m);
      InsertCounts(s[0], Sort(s[1..]), m);
    }
  }

  lemma {:induction false} SortedRanks(s: seq<int>, k: nat)
    requires IsSorted(s) && k < |s|
    ensures AtMost(s, s[k]) >= k + 1 && AtLeast(s, s[k]) >= |s| - k
  {
    if k == 0 {
      AllAtLeast(s, s[0]);
    } else {
      SortedRanks(s[1..], k - 1);
    }
  }

  lemma {:induction false} AllAtLeast(s: seq<int>, m: int)
    requires forall k :: 0 <= k < |s| ==> m <= s[k]
    ensures AtLeast(s, m) == |s|
  {
    if s != [] { AllAtLeast(s[1..], m); }
  }

  /** At least floor(len/2) + 1 entries are no larger than the median, at least ceil(len/2) no smaller. */
  lemma MedianRanks(window: seq<int>)
    requires window != []
    ensures AtMost(window, MedianOf(window)) >= |window| / 2 + 1
    ensures AtLeast(window, MedianOf(window)) >= (|window| + 1) / 2
  {
    SortSorts(window);
    SortCounts(window, MedianOf(window));
    SortedRanks(Sort(window), |window| / 2);
  }
}
