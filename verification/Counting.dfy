/** Counting the elements of a sequence that satisfy a predicate, and sums of integer sequences. */
module Counting {

  /** How many elements of `s` satisfy `p`; built from the right, as a log grows. */
  function CountIf<T>(s: seq<T>, p: T -> bool): nat {
    if |s| == 0 then 0 else CountIf(s[..|s| - 1], p) + (if p(s[|s| - 1]) then 1 else 0)
  }

  lemma CountSnoc<T>(s: seq<T>, x: T, p: T -> bool)
    ensures CountIf(s + [x], p) == CountIf(s, p) + (if p(x) then 1 else 0)
  {
    assert (s + [x])[..|s|] == s;
  }

  lemma {:induction false} CountConcat<T>(s: seq<T>, t: seq<T>, p: T -> bool)
    ensures CountIf(s + t, p) == CountIf(s, p) + CountIf(t, p)
  {
    if |t| == 0 {
      assert s + t == s;
    } else {
      var init, last := t[..|t| - 1], t[|t| - 1];
      assert s + t == (s + init) + [last];
      CountSnoc(s + init, last, p);
      CountConcat(s, init, p);
    }
  }

  /** Replacing one element changes the count by the difference of the two contributions. */
  lemma {:induction false} CountUpdate<T>(s: seq<T>, i: nat, x: T, p: T -> bool)
    requires i < |s|
    ensures CountIf(s[i := x], p) + (if p(s[i]) then 1 else 0) == CountIf(s, p) + (if p(x) then 1 else 0)
  {
    var init := s[..|s| - 1];
    if i < |init| {
      assert s[i := x][..|s| - 1] == init[i := x];
      CountUpdate(init, i, x, p);
    } else {
      assert s[i := x][..|s| - 1] == init;
    }
  }

  /** The count is zero exactly when no element qualifies. */
  lemma {:induction false} CountZero<T>(s: seq<T>, p: T -> bool)
    ensures CountIf(s, p) == 0 <==> forall i | 0 <= i < |s| :: !p(s[i])
  {
    if |s| == 0 {
    } else {
      var init := s[..|s| - 1];
      CountZero(init, p);
      assert s == init + [s[|s| - 1]];
      assert (forall i | 0 <= i < |s| :: !p(s[i])) ==> forall i | 0 <= i < |init| :: !p(init[i]);
    }
  }

  /** The keys of the entries whose value satisfies `p`. */
  function Select<K, V>(m: map<K, V>, p: V -> bool): set<K> {
    set k | k in m && p(m[k])
  }

  lemma SelectSwap<K, V>(m: map<K, V>, k: K, v: V, p: V -> bool)
    ensures Select(m[k := v], p) == (Select(m, p) - {k}) + (if p(v) then {k} else {})
    ensures k in Select(m, p) <==> k in m && p(m[k])
  {
  }

  lemma SwapSize<K>(s: set<K>, k: K, joins: bool)
    ensures |(s - {k}) + (if joins then {k} else {})| + (if k in s then 1 else 0) == |s| + (if joins then 1 else 0)
  {
    assert k in s ==> s == (s - {k}) + {k};
    assert k !in s ==> s == s - {k};
  }

  /** Writing one entry moves only its own key in or out of a selection. */
  lemma SelectUpdate<K, V>(m: map<K, V>, k: K, v: V, p: V -> bool)
    ensures Select(m[k := v], p) == (Select(m, p) - {k}) + (if p(v) then {k} else {})
    ensures |Select(m[k := v], p)| + (if k in m && p(m[k]) then 1 else 0)
            == |Select(m, p)| + (if p(v) then 1 else 0)
  {
    hide Select;
    SelectSwap(m, k, v, p);
    SwapSize(Select(m, p), k, p(v));
  }

  /** When an entry that qualified still does, a selection can only grow, by that entry. */
  lemma SelectGrows<K, V>(m: map<K, V>, k: K, v: V, p: V -> bool)
    requires k in m && (p(m[k]) ==> p(v))
    ensures Select(m[k := v], p) == Select(m, p) + (if p(v) && !p(m[k]) then {k} else {})
    ensures |Select(m[k := v], p)| == |Select(m, p)| + (if p(v) && !p(m[k]) then 1 else 0)
  {
    hide Select;
    SelectSwap(m, k, v, p);
    SwapSize(Select(m, p), k, p(v));
  }

  function Sum(s: seq<int>): int {
    if |s| == 0 then 0 else Sum(s[..|s| - 1]) + s[|s| - 1]
  }

  lemma {:induction false} SumUpdate(s: seq<int>, i: nat, x: int)
    requires i < |s|
    ensures Sum(s[i := x]) == Sum(s) - s[i] + x
  {
    var init := s[..|s| - 1];
    if i < |init| {
      assert s[i := x][..|s| - 1] == init[i := x];
      SumUpdate(init, i, x);
    } else {
      assert s[i := x][..|s| - 1] == init;
    }
  }

  /** A floor under every term bounds any single term from above through the sum. */
  lemma {:induction false} SumBoundsTerm(s: seq<int>, floor: int, i: nat)
    requires i < |s|
    requires forall j | 0 <= j < |s| :: s[j] >= floor
    ensures s[i] + floor * (|s| - 1) <= Sum(s)
  {
    var init := s[..|s| - 1];
    if i < |init| {
      SumBoundsTerm(init, floor, i);
      assert floor * (|s| - 1) == floor * (|init| - 1) + floor;
    } else {
      SumFloor(init, floor);
    }
  }

  lemma {:induction false} SumFloor(s: seq<int>, floor: int)
    requires forall j | 0 <= j < |s| :: s[j] >= floor
    ensures Sum(s) >= floor * |s|
  {
    if |s| == 0 {
    } else {
      SumFloor(s[..|s| - 1], floor);
      assert floor * |s| == floor * (|s| - 1) + floor;
    }
  }

  lemma {:induction false} SumZeros(s: seq<int>)
    requires forall j | 0 <= j < |s| :: s[j] == 0
    ensures Sum(s) == 0
  {
    if |s| == 0 {
    } else {
      SumZeros(s[..|s| - 1]);
    }
  }

  /** Non-negative terms that add up to zero are all zero. */
  lemma {:induction false} ZeroSum(s: seq<int>)
    requires Sum(s) == 0
    requires forall j | 0 <= j < |s| :: s[j] >= 0
    ensures forall j | 0 <= j < |s| :: s[j] == 0
  {
    forall j | 0 <= j < |s| ensures s[j] == 0 { SumBoundsTerm(s, 0, j); }
  }
}
