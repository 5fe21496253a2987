/** The nearest-rank percentile of the observed latencies. */
module Percentile {
  import opened Arithmetic
  import opened Counting
  import opened Ledger

  function InsertSorted(s: seq<int>, x: int): (r: seq<int>)
    ensures |r| == |s| + 1
  {
    if |s| == 0 || s[|s| - 1] <= x then s + [x]
    else InsertSorted(s[..|s| - 1], x) + [s[|s| - 1]]
  }

  /** `sorted(values)`. */
  function Sorted(values: seq<int>): (r: seq<int>)
    ensures |r| == |values|
  {
    if |values| == 0 then [] else InsertSorted(Sorted(values[..|values| - 1]), values[|values| - 1])
  }

  predicate Ascending(s: seq<int>) {
    forall i, j | 0 <= i <= j < |s| :: s[i] <= s[j]
  }

  lemma {:induction false} InsertKeepsElements(s: seq<int>, x: int)
    ensures multiset(InsertSorted(s, x)) == multiset(s) + multiset{x}
  {
    if |s| == 0 || s[|s| - 1] <= x {
    } else {
      InsertKeepsElements(s[..|s| - 1], x);
      assert s == s[..|s| - 1] + [s[|s| - 1]];
    }
  }

  lemma AppendLargest(s: seq<int>, x: int)
    requires Ascending(s) && forall i | 0 <= i < |s| :: s[i] <= x
    ensures Ascending(s + [x])
  {
  }

  lemma {:induction false} InsertKeepsOrder(s: seq<int>, x: int)
    requires Ascending(s)
    ensures Ascending(InsertSorted(s, x))
  {
    hide Ascending;
    if |s| == 0 || s[|s| - 1] <= x {
      LastBounds(s);
      AppendLargest(s, x);
    } else {
      var init, last := s[..|s| - 1], s[|s| - 1];
      DropLast(s);
      LastBounds(s);
      InsertKeepsOrder(init, x);
      InsertKeepsElements(init, x);
      BoundedBy(InsertSorted(init, x), init, x, last);
      AppendLargest(InsertSorted(init, x), last);
    }
  }

  lemma LastBounds(s: seq<int>)
    requires Ascending(s)
    ensures |s| > 0 ==> forall i | 0 <= i < |s| :: s[i] <= s[|s| - 1]
  {
  }

  lemma BoundedBy(r: seq<int>, s: seq<int>, x: int, bound: int)
    requires multiset(r) == multiset(s) + multiset{x}
    requires x <= bound && forall i | 0 <= i < |s| :: s[i] <= bound
    ensures forall i | 0 <= i < |r| :: r[i] <= bound
  {
    forall i | 0 <= i < |r| ensures r[i] <= bound {
      assert r[i] in multiset(r);
    }
  }

  lemma {:induction false} SortedIsSorted(values: seq<int>)
    ensures Ascending(Sorted(values)) && multiset(Sorted(values)) == multiset(values)
  {
    if |values| == 0 {
    } else {
      var init, last := values[..|values| - 1], values[|values| - 1];
      SortedIsSorted(init);
      InsertKeepsOrder(Sorted(init), last);
      InsertKeepsElements(Sorted(init), last);
      assert values == init + [last];
    }
  }

  lemma LastIsLargest(a: seq<int>, b: seq<int>)
    requires |a| > 0 && |b| > 0 && Ascending(a) && multiset(b) <= multiset(a)
    ensures b[|b| - 1] <= a[|a| - 1]
  {
    assert b[|b| - 1] in multiset(a);
  }

  lemma DropLast(a: seq<int>)
    requires |a| > 0 && Ascending(a)
    ensures var n := |a| - 1;
            multiset(a[..n]) == multiset(a) - multiset{a[n]} && Ascending(a[..n]) && a == a[..n] + [a[n]]
  {
    assert a == a[..|a| - 1] + [a[|a| - 1]];
  }

  lemma SameSize(a: seq<int>, b: seq<int>)
    requires multiset(a) == multiset(b)
    ensures |a| == |b|
  {
    assert |a| == |multiset(a)| == |multiset(b)| == |b|;
  }

  /** An ascending sequence is determined by its elements. */
  lemma {:induction false} AscendingUnique(a: seq<int>, b: seq<int>)
    requires Ascending(a) && Ascending(b) && multiset(a) == multiset(b)
    ensures a == b
  {
    hide Ascending;
    SameSize(a, b);
    if |a| == 0 {
    } else {
      LastIsLargest(a, b);
      LastIsLargest(b, a);
      DropLast(a);
      DropLast(b);
      AscendingUnique(a[..|a| - 1], b[..|b| - 1]);
    }
  }

  /** A position, clamped into the list. */
  function Clamp(n: nat, k: int): (c: nat)
    requires n > 0
    ensures c < n
  {
    if k < 0 then 0 else if k > n - 1 then n - 1 else k
  }

  /** How far up a list of n a percentage points. */
  function Position(n: nat, pct: real): real
    requires n > 0
  {
    pct / 100.0 * (n - 1) as real
  }

  /** The rank looked up: the rounded position, clamped into the list. */
  function Rank(n: nat, pct: real): (k: nat)
    requires n > 0
    ensures k < n
  {
    Clamp(n, RoundReal(Position(n, pct)))
  }

  /** `_percentile`; an empty list has no element to index. */
  function NearestRank(values: seq<int>, pct: real): (v: Option<int>)
    ensures v == None <==> |values| == 0
  {
    if |values| == 0 then None else Some(Sorted(values)[Rank(|values|, pct)])
  }

  function AtMost(v: int): int -> bool { (x: int) => x <= v }

  function AtLeast(v: int): int -> bool { (x: int) => x >= v }

  lemma {:induction false} CountAll(s: seq<int>, p: int -> bool)
    requires forall i | 0 <= i < |s| :: p(s[i])
    ensures CountIf(s, p) == |s|
  {
    if |s| == 0 {
    } else {
      CountAll(s[..|s| - 1], p);
    }
  }

  lemma {:induction false} CountInsert(s: seq<int>, x: int, p: int -> bool)
    ensures CountIf(InsertSorted(s, x), p) == CountIf(s, p) + (if p(x) then 1 else 0)
  {
    if |s| == 0 || s[|s| - 1] <= x {
      CountSnoc(s, x, p);
    } else {
      CountInsert(s[..|s| - 1], x, p);
      CountSnoc(InsertSorted(s[..|s| - 1], x), s[|s| - 1], p);
    }
  }

  lemma {:induction false} CountSorted(values: seq<int>, p: int -> bool)
    ensures CountIf(Sorted(values), p) == CountIf(values, p)
  {
    if |values| == 0 {
    } else {
      CountSorted(values[..|values| - 1], p);
      CountInsert(Sorted(values[..|values| - 1]), values[|values| - 1], p);
    }
  }

  /** Which rank a percentage asks for: the nearest to that share of the way up the list, the
      even one on a tie; below 0 the first, above 100 the last. */
  predicate IsRank(n: nat, pct: real, k: nat)
    requires n > 0
  {
    if pct < 0.0 then k == 0
    else if pct > 100.0 then k == n - 1
    else
      var off := k as real - Position(n, pct);
      -0.5 <= off <= 0.5 && (off == 0.5 || off == -0.5 ==> k % 2 == 0)
  }

  lemma RankMeaning(n: nat, pct: real, k: nat)
    requires n > 0
    ensures IsRank(n, pct, k) <==> k == Rank(n, pct)
  {
    hide RoundReal, Clamp, Position;
    PositionBounds(n, pct);
    ClampMeaning(n, pct, Position(n, pct), k);
  }

  /** The same for any position that lies where the percentage says. */
  lemma ClampMeaning(n: nat, pct: real, x: real, k: nat)
    requires n > 0
    requires pct < 0.0 ==> x <= 0.0
    requires pct > 100.0 ==> x >= (n - 1) as real
    requires 0.0 <= pct <= 100.0 ==> 0.0 <= x <= (n - 1) as real
    ensures k == Clamp(n, RoundReal(x))
            <==> if pct < 0.0 then k == 0
                 else if pct > 100.0 then k == n - 1
                 else -0.5 <= k as real - x <= 0.5
                      && (k as real - x == 0.5 || k as real - x == -0.5 ==> k % 2 == 0)
  {
    hide RoundReal;
    var r := RoundReal(x);
    RealRoundCharacterised(x, r);
    if pct < 0.0 {
      BelowRounds(x, r);
    } else if pct > 100.0 {
      AboveRounds(x, r, n - 1);
    } else {
      WithinRounds(x, r, n - 1);
      RealRoundCharacterised(x, k);
    }
  }

  lemma PositionBounds(n: nat, pct: real)
    requires n > 0
    ensures pct >= 0.0 ==> Position(n, pct) >= 0.0
    ensures pct <= 0.0 ==> Position(n, pct) <= 0.0
    ensures pct <= 100.0 ==> Position(n, pct) <= (n - 1) as real
    ensures pct >= 100.0 ==> Position(n, pct) >= (n - 1) as real
  {
    Shares(pct / 100.0, (n - 1) as real);
  }

  lemma Shares(share: real, m: real)
    requires m >= 0.0
    ensures share >= 0.0 ==> share * m >= 0.0
    ensures share <= 0.0 ==> share * m <= 0.0
    ensures share <= 1.0 ==> share * m <= m
    ensures share >= 1.0 ==> share * m >= m
  {
    assert share * m - m == (share - 1.0) * m;
    SignedProduct(share, m);
    SignedProduct(share - 1.0, m);
  }

  lemma SignedProduct(a: real, m: real)
    requires m >= 0.0
    ensures a >= 0.0 ==> a * m >= 0.0
    ensures a <= 0.0 ==> a * m <= 0.0
  {
  }

  lemma BelowRounds(x: real, r: int)
    requires x <= 0.0 && r as real - x <= 0.5 && (r as real - x == 0.5 ==> r % 2 == 0)
    ensures r <= 0
  {
  }

  lemma AboveRounds(x: real, r: int, top: nat)
    requires x >= top as real && -0.5 <= r as real - x
    ensures r >= top
  {
  }

  lemma WithinRounds(x: real, r: int, top: nat)
    requires 0.0 <= x <= top as real && -0.5 <= r as real - x <= 0.5
    ensures 0 <= r <= top
  {
  }

  /** What a percentile is: for the rank k its percentage asks for, the one observed value with
      at least k+1 observations at or below it and at least n-k at or above it. */
  lemma NearestRankIff(values: seq<int>, pct: real, k: nat, v: int)
    requires |values| > 0 && k < |values| && IsRank(|values|, pct, k)
    ensures NearestRank(values, pct) == Some(v)
            <==> v in values && CountIf(values, AtMost(v)) >= k + 1 && CountIf(values, AtLeast(v)) >= |values| - k
  {
    hide CountIf, Rank, Sorted, Ascending, IsRank;
    var s := Sorted(values);
    RankMeaning(|values|, pct, k);
    SortedIsSorted(values);
    assert s[k] in multiset(values);
    CountSorted(values, AtMost(v));
    CountSorted(values, AtLeast(v));
    if v == s[k] {
      AtMostRank(s, k);
      AtLeastRank(s, k);
    } else if v < s[k] {
      FewBelow(s, k, v);
    } else {
      FewAbove(s, k, v);
    }
  }

  lemma FewBelow(s: seq<int>, k: nat, v: int)
    requires Ascending(s) && k < |s| && v < s[k]
    ensures CountIf(s, AtMost(v)) <= k
  {
    hide CountIf;
    assert s == s[..k] + s[k..];
    CountConcat(s[..k], s[k..], AtMost(v));
    CountBound(s[..k], AtMost(v));
    CountZero(s[k..], AtMost(v));
  }

  lemma FewAbove(s: seq<int>, k: nat, v: int)
    requires Ascending(s) && k < |s| && s[k] < v
    ensures CountIf(s, AtLeast(v)) <= |s| - 1 - k
  {
    hide CountIf;
    assert s == s[..k + 1] + s[k + 1..];
    CountConcat(s[..k + 1], s[k + 1..], AtLeast(v));
    CountBound(s[k + 1..], AtLeast(v));
    CountZero(s[..k + 1], AtLeast(v));
  }

  lemma {:induction false} CountBound(s: seq<int>, p: int -> bool)
    ensures CountIf(s, p) <= |s|
  {
    if |s| == 0 {
    } else {
      CountBound(s[..|s| - 1], p);
    }
  }

  /** From the percentage alone: the value has its share of the observations on either side, to
      within half an observation. */
  lemma NearestRankMeaning(values: seq<int>, pct: real)
    requires |values| > 0
    ensures NearestRank(values, pct).Some?
    ensures var v, share := NearestRank(values, pct).value, Position(|values|, pct);
            && v in values
            && (0.0 <= pct <= 100.0 ==> CountIf(values, AtMost(v)) as real >= share + 0.5)
            && (0.0 <= pct <= 100.0 ==> CountIf(values, AtLeast(v)) as real >= |values| as real - share - 0.5)
            && (pct <= 0.0 ==> CountIf(values, AtLeast(v)) == |values|)
            && (pct >= 100.0 ==> CountIf(values, AtMost(v)) == |values|)
  {
    hide CountIf, Rank, Sorted, Position;
    var k := Rank(|values|, pct);
    RankMeaning(|values|, pct, k);
    NearestRankIff(values, pct, k, Sorted(values)[k]);
    CountBound(values, AtMost(Sorted(values)[k]));
    CountBound(values, AtLeast(Sorted(values)[k]));
    PositionBounds(|values|, pct);
  }

  /** The observed batch: fifteen healthy, three failover and two slow latencies. */
  const OBSERVED: seq<int> := seq(15, _ => 712) + seq(3, _ => 1812) + seq(2, _ => 2112)

  lemma ObservedPercentiles()
    ensures NearestRank(OBSERVED, 50.0) == Some(712) && NearestRank(OBSERVED, 95.0) == Some(2112)
  {
    hide CountIf, NearestRank;
    var healthy, failover, slow := seq(15, _ => 712), seq(3, _ => 1812), seq(2, _ => 2112);
    forall p: int -> bool
      ensures CountIf(OBSERVED, p) == CountIf(healthy, p) + CountIf(failover, p) + CountIf(slow, p)
    {
      CountConcat(healthy + failover, slow, p);
      CountConcat(healthy, failover, p);
    }
    CountAll(healthy, AtMost(712));
    CountAll(healthy, AtMost(2112));
    CountAll(failover, AtMost(2112));
    CountAll(slow, AtMost(2112));
    CountAll(healthy, AtLeast(712));
    CountAll(failover, AtLeast(712));
    CountAll(slow, AtLeast(712));
    CountAll(slow, AtLeast(2112));
    assert OBSERVED[0] == 712 && OBSERVED[19] == 2112;
    NearestRankIff(OBSERVED, 50.0, 10, 712);
    NearestRankIff(OBSERVED, 95.0, 18, 2112);
  }

  lemma AtMostRank(s: seq<int>, k: nat)
    requires Ascending(s) && k < |s|
    ensures CountIf(s, AtMost(s[k])) >= k + 1
  {
    hide CountIf;
    var p := AtMost(s[k]);
    assert s == s[..k + 1] + s[k + 1..];
    CountConcat(s[..k + 1], s[k + 1..], p);
    CountAll(s[..k + 1], p);
  }

  lemma AtLeastRank(s: seq<int>, k: nat)
    requires Ascending(s) && k < |s|
    ensures CountIf(s, AtLeast(s[k])) >= |s| - k
  {
    hide CountIf;
    var p := AtLeast(s[k]);
    assert s == s[..k] + s[k..];
    CountConcat(s[..k], s[k..], p);
    CountAll(s[k..], p);
  }

  /** The order in which latencies were observed does not matter. */
  lemma OrderIrrelevant(a: seq<int>, b: seq<int>, pct: real)
    requires multiset(a) == multiset(b)
    ensures NearestRank(a, pct) == NearestRank(b, pct)
  {
    hide Sorted, Rank;
    SortedIsSorted(a);
    SortedIsSorted(b);
    AscendingUnique(Sorted(a), Sorted(b));
    SameSize(a, b);
  }

  /** A higher percentage never gives a lower value; so p50 <= p95 whatever was observed. */
  lemma MonotoneInPct(values: seq<int>, low: real, high: real)
    requires |values| > 0 && low <= high
    ensures NearestRank(values, low).value <= NearestRank(values, high).value
  {
    hide Sorted, Rank;
    RankMonotone(|values|, low, high);
    SortedIsSorted(values);
  }

  lemma RankMonotone(n: nat, low: real, high: real)
    requires n > 0 && low <= high
    ensures Rank(n, low) <= Rank(n, high)
  {
    hide RoundReal;
    Scale(low / 100.0, high / 100.0, (n - 1) as real);
    RealRoundMonotone(Position(n, low), Position(n, high));
  }

  lemma Scale(low: real, high: real, m: real)
    requires low <= high && m >= 0.0
    ensures low * m <= high * m
  {
    assert (high - low) * m >= 0.0;
  }
}
