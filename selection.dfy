/** The selection arithmetic of the training loop in src/main.py: the
    fitness of an agent, the stable sort by fitness, the kept top half, the
    five elites, and the sub-generation windows. */
module Selection {

  /** Python's round(x, 0): the nearest integer, ties to the even one. */
  function RoundHalfEven(x: real): (n: int)
    ensures x - 0.5 <= n as real <= x + 0.5
    ensures (n as real - x == 0.5 || x - n as real == 0.5) ==> n % 2 == 0
  {
    var f := x.Floor;
    var frac := x - f as real;
    if frac < 0.5 then f
    else if frac > 0.5 then f + 1
    else if f % 2 == 0 then f else f + 1
  }

  /** The integer the two ensures of RoundHalfEven pin down is unique, so
      they say everything about it. */
  lemma RoundHalfEvenUnique(x: real, m: int)
    requires x - 0.5 <= m as real <= x + 0.5
    requires (m as real - x == 0.5 || x - m as real == 0.5) ==> m % 2 == 0
    ensures m == RoundHalfEven(x)
  {
  }

  lemma RoundHalfEvenMonotone(x: real, y: real)
    requires x <= y
    ensures RoundHalfEven(x) <= RoundHalfEven(y)
  {
  }

  /** fitness = round(position.x, 0) / 1000.0: the horizontal position
      rounded to a whole unit, in thousands of units. */
  function Fitness(x: real): (f: real)
    ensures x / 1000.0 - 0.0005 <= f <= x / 1000.0 + 0.0005
  {
    RoundHalfEven(x) as real / 1000.0
  }

  /** An agent further to the right never has a lower fitness. */
  lemma FitnessMonotone(x: real, y: real)
    requires x <= y
    ensures Fitness(x) <= Fitness(y)
  {
    RoundHalfEvenMonotone(x, y);
  }

  /** A (fitness, position in the agent list) pair: what sorted() compares,
      with the position recording the original order. */
  type Ranked = (real, nat)

  /** a comes before b in a stable sort by fitness. */
  predicate Precedes(a: Ranked, b: Ranked) {
    a.0 < b.0 || (a.0 == b.0 && a.1 < b.1)
  }

  /** Ascending by fitness, with equal fitnesses in their original order. */
  predicate StablySorted(r: seq<Ranked>) {
    forall i, j :: 0 <= i < j < |r| ==> Precedes(r[i], r[j])
  }

  /** Positions strictly increasing: the list as first given. */
  predicate InListOrder(s: seq<Ranked>) {
    forall i, j :: 0 <= i < j < |s| ==> s[i].1 < s[j].1
  }

  /** Inserts x, which comes later in the list than everything in r,
      after every entry whose fitness is not above its own. */
  function Insert(r: seq<Ranked>, x: Ranked): (out: seq<Ranked>)
    requires StablySorted(r)
    requires forall k :: 0 <= k < |r| ==> r[k].1 < x.1
    ensures StablySorted(out)
    ensures multiset(out) == multiset(r) + multiset{x}
    ensures |out| == |r| + 1
    decreases |r|
  {
    if |r| == 0 || r[|r| - 1].0 <= x.0 then
      r + [x]
    else
      var init, last := r[..|r| - 1], r[|r| - 1];
      var rest := Insert(init, x);
      assert r == init + [last];
      AllPrecede(rest, init, x, last);
      rest + [last]
  }

  /** Whatever was rearranged from init and x comes before last when they
      all do. */
  lemma AllPrecede(rest: seq<Ranked>, init: seq<Ranked>, x: Ranked, last: Ranked)
    requires multiset(rest) == multiset(init) + multiset{x}
    requires forall k :: 0 <= k < |init| ==> Precedes(init[k], last)
    requires Precedes(x, last)
    ensures forall k :: 0 <= k < |rest| ==> Precedes(rest[k], last)
  {
    forall k | 0 <= k < |rest|
      ensures Precedes(rest[k], last)
    {
      assert rest[k] in multiset(rest);
      if rest[k] != x {
        assert rest[k] in multiset(init);
        var i :| 0 <= i < |init| && init[i] == rest[k];
      }
    }
  }

  /** A rearrangement keeps the entries' positions below a bound. */
  lemma PositionsBelow(a: seq<Ranked>, b: seq<Ranked>, bound: nat)
    requires multiset(a) == multiset(b)
    requires forall k :: 0 <= k < |b| ==> b[k].1 < bound
    ensures forall k :: 0 <= k < |a| ==> a[k].1 < bound
  {
    forall k | 0 <= k < |a|
      ensures a[k].1 < bound
    {
      assert a[k] in multiset(b);
      var i :| 0 <= i < |b| && b[i] == a[k];
    }
  }

  /** sorted(sim_list, key=lambda x: x.fitness): stable insertion sort. */
  function SortRanked(s: seq<Ranked>): (r: seq<Ranked>)
    requires InListOrder(s)
    ensures StablySorted(r) && multiset(r) == multiset(s) && |r| == |s|
  {
    if |s| == 0 then []
    else
      var init, last := s[..|s| - 1], s[|s| - 1];
      var sortedInit := SortRanked(init);
      PositionsBelow(sortedInit, init, last.1);
      assert s == init + [last];
      Insert(sortedInit, last)
  }

  /** Stable sorting has one answer: any two stably sorted arrangements of
      the same entries are equal, so SortRanked is what Python's sorted()
      returns whatever algorithm it runs. */
  lemma {:induction false} StableSortUnique(a: seq<Ranked>, b: seq<Ranked>)
    requires StablySorted(a) && StablySorted(b) && multiset(a) == multiset(b)
    ensures a == b
    decreases |a|
  {
    if |a| == 0 {
      assert |b| == |multiset(b)| == 0;
    } else {
      assert |b| == |multiset(b)| == |multiset(a)| == |a|;
      SameFirst(a, b);
      assert a == [a[0]] + a[1..] && b == [b[0]] + b[1..];
      assert multiset(a) == multiset([a[0]]) + multiset(a[1..]);
      assert multiset(b) == multiset([b[0]]) + multiset(b[1..]);
      assert multiset(a[1..]) == multiset(a) - multiset([a[0]]);
      assert multiset(b[1..]) == multiset(b) - multiset([b[0]]);
      StableSortUnique(a[1..], b[1..]);
    }
  }

  /** Two stably sorted arrangements of the same entries start alike. */
  lemma SameFirst(a: seq<Ranked>, b: seq<Ranked>)
    requires StablySorted(a) && StablySorted(b) && multiset(a) == multiset(b)
    requires |a| > 0 && |b| > 0
    ensures a[0] == b[0]
  {
    assert a[0] in multiset(b);
    var i :| 0 <= i < |b| && b[i] == a[0];
    assert b[0] in multiset(a);
    var j :| 0 <= j < |a| && a[j] == b[0];
    if i != 0 {
      assert false;
    }
  }

  /** generation_list[half_index:]: the upper half, with the middle entry
      going to the upper half when the count is odd. */
  function TopHalf<T>(sorted: seq<T>): (top: seq<T>)
    ensures |top| == |sorted| - |sorted| / 2
    ensures forall k :: 0 <= k < |top| ==> top[k] == sorted[|sorted| / 2 + k]
  {
    sorted[|sorted| / 2..]
  }

  /** Every kept entry has a fitness at least that of every dropped one. */
  lemma TopHalfOutranks(sorted: seq<Ranked>, i: nat, j: nat)
    requires StablySorted(sorted)
    requires i < |sorted| / 2 && j < |TopHalf(sorted)|
    ensures sorted[i].0 <= TopHalf(sorted)[j].0
  {
    assert Precedes(sorted[i], sorted[|sorted| / 2 + j]);
  }

  /** Python's normalisation of a slice bound b against a list of length n. */
  function SliceBound(n: nat, b: int): (r: nat)
    ensures r <= n
    ensures 0 <= b <= n ==> r == b
    ensures b > n ==> r == n
    ensures b < 0 && b + n >= 0 ==> r == b + n
    ensures b + n < 0 ==> r == 0
  {
    if b < 0 then (if b + n < 0 then 0 else b + n) else if b > n then n else b
  }

  const EliteCount: nat := 5

  /** generation_list[len - 5:len]. */
  function Elites<T>(top: seq<T>): seq<T> {
    top[SliceBound(|top|, |top| - EliteCount)..SliceBound(|top|, |top|)]
  }

  /** With five or more kept agents the elites are exactly the last five,
      the best of the sorted list. */
  lemma ElitesAreLastFive<T>(top: seq<T>)
    requires |top| >= EliteCount
    ensures Elites(top) == top[|top| - EliteCount..] && |Elites(top)| == EliteCount
  {
  }

  /** With fewer than five, the negative start counts from the end: a list
      of three or four keeps 5 - len entries, a shorter one keeps all. */
  lemma ElitesOfShortList<T>(top: seq<T>)
    requires |top| < EliteCount
    ensures 3 <= |top| ==> Elites(top) == top[2 * |top| - EliteCount..] && |Elites(top)| == EliteCount - |top|
    ensures |top| < 3 ==> Elites(top) == top
  {
  }

  /** subgen_num, and the window of ten agents one sub-generation runs. */
  const SubgenNum: nat := 10
  const WindowSize: nat := 10

  function WindowStart(subgenCount: nat): nat
    requires subgenCount >= 1
  {
    WindowSize * (subgenCount - 1)
  }

  /** The window a sub-generation counter selects. */
  predicate InWindow(subgenCount: nat, i: nat)
    requires subgenCount >= 1
  {
    WindowStart(subgenCount) <= i < WindowStart(subgenCount) + WindowSize
  }

  /** The sub-generations 1 to 10 give every one of the first hundred
      agents exactly one window. */
  lemma WindowsPartition(i: nat)
    requires i < SubgenNum * WindowSize
    ensures InWindow(i / WindowSize + 1, i) && 1 <= i / WindowSize + 1 <= SubgenNum
    ensures forall c :: 1 <= c <= SubgenNum && InWindow(c, i) ==> c == i / WindowSize + 1
  {
    forall c | 1 <= c <= SubgenNum && InWindow(c, i)
      ensures c == i / WindowSize + 1
    {
      assert WindowSize * (c - 1) <= i < WindowSize * (c - 1) + WindowSize;
    }
  }

  /** s[start:end] for non-negative bounds. */
  function PySlice<T>(s: seq<T>, start: nat, end: nat): (r: seq<T>)
    ensures |r| == if start <= end && start <= |s| then (if end <= |s| then end else |s|) - start else 0
    ensures forall k :: 0 <= k < |r| ==> r[k] == s[start + k]
  {
    var lo := SliceBound(|s|, start);
    var hi := SliceBound(|s|, end);
    if lo <= hi then s[lo..hi] else []
  }
}
