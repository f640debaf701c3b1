/** `_percentile`: interpolation between the order statistics of a sample, over the reals. */
module Percentile {
  import opened Sorting

  function Insert(s: seq<real>, x: real): (r: seq<real>)
    ensures |r| == |s| + 1
  {
    if s == [] then [x] else if x <= s[0] then [x] + s else [s[0]] + Insert(s[1..], x)
  }

  /** `sorted(values)`. */
  function Sorted(values: seq<real>): (r: seq<real>)
    ensures |r| == |values|
  {
    if values == [] then [] else Insert(Sorted(values[1..]), values[0])
  }

  lemma {:induction false} InsertIsAscending(s: seq<real>, x: real)
    requires Ascending(s)
    ensures Ascending(Insert(s, x)) && Insert(s, x)[0] == if s != [] && s[0] < x then s[0] else x
  {
    if s != [] && x > s[0] {
      InsertIsAscending(s[1..], x);
    }
  }

  lemma {:induction false} InsertAdds(s: seq<real>, x: real)
    ensures multiset(Insert(s, x)) == multiset(s) + multiset{x}
  {
    if s != [] && x > s[0] {
      InsertAdds(s[1..], x);
      assert s == [s[0]] + s[1..];
    }
  }

  lemma {:induction false} SortedIs(values: seq<real>)
    ensures Ascending(Sorted(values)) && multiset(Sorted(values)) == multiset(values)
  {
    if values != [] {
      var first, rest := values[0], values[1..];
      SortedIs(rest);
      InsertIsAscending(Sorted(rest), first);
      InsertAdds(Sorted(rest), first);
      assert values == [first] + rest;
      assert multiset(values) == multiset{first} + multiset(rest);
    }
  }

  /** A multiset has one ascending list. */
  lemma {:induction false} AscendingIsUnique(s: seq<real>, t: seq<real>)
    requires Ascending(s) && Ascending(t) && multiset(s) == multiset(t)
    ensures s == t
  {
    SameLength(s, t);
    if s != [] {
      SameHead(s, t);
      SameTails(s, t);
      AscendingIsUnique(s[1..], t[1..]);
      assert s == [s[0]] + s[1..] && t == [t[0]] + t[1..];
    }
  }

  lemma SameLength(s: seq<real>, t: seq<real>)
    requires multiset(s) == multiset(t)
    ensures |s| == |t|
  {
    assert |s| == |multiset(s)| && |t| == |multiset(t)|;
  }

  lemma SameHead(s: seq<real>, t: seq<real>)
    requires Ascending(s) && Ascending(t) && multiset(s) == multiset(t) && s != [] && t != []
    ensures s[0] == t[0]
  {
    assert s[0] in multiset(t) && t[0] in multiset(s);
    var i :| 0 <= i < |t| && t[i] == s[0];
    var j :| 0 <= j < |s| && s[j] == t[0];
  }

  lemma SameTails(s: seq<real>, t: seq<real>)
    requires multiset(s) == multiset(t) && s != [] && t != [] && s[0] == t[0]
    ensures multiset(s[1..]) == multiset(t[1..])
  {
    assert s == [s[0]] + s[1..] && t == [t[0]] + t[1..];
    assert multiset(s[1..]) == multiset(s) - multiset{s[0]} && multiset(t[1..]) == multiset(t) - multiset{t[0]};
  }

  function Ceiling(x: real): int {
    -((-x).Floor)
  }

  function Interpolate(a: real, b: real, part: real): (r: real)
    requires a <= b && 0.0 <= part <= 1.0
    ensures a <= r <= b
  {
    Scale(b - a, part, 1.0);
    a + (b - a) * part
  }

  lemma Scale(gap: real, part: real, larger: real)
    requires gap >= 0.0 && 0.0 <= part <= larger <= 1.0
    ensures 0.0 <= gap * part <= gap * larger <= gap
  {
  }

  /** The value at a fractional rank. */
  function AtRank(ordered: seq<real>, rank: real): real
    requires 0.0 <= rank <= (|ordered| - 1) as real && Ascending(ordered)
  {
    var lower, upper := rank.Floor, Ceiling(rank);
    if lower == upper then ordered[lower] else Interpolate(ordered[lower], ordered[upper], rank - lower as real)
  }

  function Rank(n: nat, ratio: real): (rank: real)
    requires n > 0 && 0.0 <= ratio <= 1.0
    ensures 0.0 <= rank <= (n - 1) as real
  {
    (n - 1) as real * ratio
  }

  function PercentileOf(values: seq<real>, ratio: real): real
    requires 0.0 <= ratio <= 1.0
  {
    if values == [] then 0.0
    else
      SortedIs(values);
      AtRank(Sorted(values), Rank(|values|, ratio))
  }

  /** The value lies between its neighbours. */
  lemma Between(ordered: seq<real>, rank: real)
    requires Ascending(ordered) && 0.0 <= rank <= (|ordered| - 1) as real
    ensures ordered[rank.Floor] <= AtRank(ordered, rank) <= ordered[Ceiling(rank)]
  {
  }

  lemma InterpolateGrows(a: real, b: real, part: real, larger: real)
    requires a <= b && 0.0 <= part <= larger <= 1.0
    ensures Interpolate(a, b, part) <= Interpolate(a, b, larger)
  {
    var gap := b - a;
    Scale(gap, part, larger);
    assert Interpolate(a, b, part) == a + gap * part;
    assert Interpolate(a, b, larger) == a + gap * larger;
  }

  lemma AtRankIsMonotone(ordered: seq<real>, r: real, q: real)
    requires Ascending(ordered) && 0.0 <= r <= q <= (|ordered| - 1) as real
    ensures AtRank(ordered, r) <= AtRank(ordered, q)
  {
    Between(ordered, r);
    Between(ordered, q);
    var lower := r.Floor;
    if lower < q.Floor {
      assert Ceiling(r) <= q.Floor;
    } else if lower as real < r {
      assert Ceiling(r) == Ceiling(q) == lower + 1;
      InterpolateGrows(ordered[lower], ordered[lower + 1], r - lower as real, q - lower as real);
    }
  }

  lemma PercentileIs(values: seq<real>, ratio: real) returns (ordered: seq<real>)
    requires values != [] && 0.0 <= ratio <= 1.0
    ensures ordered == Sorted(values) && Ascending(ordered) && multiset(ordered) == multiset(values)
    ensures PercentileOf(values, ratio) == AtRank(ordered, Rank(|values|, ratio))
  {
    SortedIs(values);
    ordered := Sorted(values);
  }

  /** The percentile lies between the least and the greatest sample. */
  lemma InSampleRange(values: seq<real>, ratio: real, lo: real, hi: real)
    requires values != [] && 0.0 <= ratio <= 1.0 && forall i | 0 <= i < |values| :: lo <= values[i] <= hi
    ensures lo <= PercentileOf(values, ratio) <= hi
  {
    var ordered := PercentileIs(values, ratio);
    forall i | 0 <= i < |ordered| ensures lo <= ordered[i] <= hi {
      assert ordered[i] in multiset(values);
    }
    Between(ordered, Rank(|values|, ratio));
  }

  /** It does not depend on the order of the samples. */
  lemma PermutationInvariant(a: seq<real>, b: seq<real>, ratio: real)
    requires 0.0 <= ratio <= 1.0 && multiset(a) == multiset(b)
    ensures PercentileOf(a, ratio) == PercentileOf(b, ratio)
  {
    SameLength(a, b);
    if a != [] {
      var s := PercentileIs(a, ratio);
      var t := PercentileIs(b, ratio);
      AscendingIsUnique(s, t);
    }
  }

  lemma Product(a: real, x: real, y: real)
    requires a >= 0.0 && x <= y
    ensures a * x <= a * y
  {
  }

  lemma Larger(n: nat, ratio: real, larger: real)
    requires n > 0 && 0.0 <= ratio <= larger <= 1.0
    ensures Rank(n, ratio) <= Rank(n, larger)
  {
    Product((n - 1) as real, ratio, larger);
  }

  /** It grows with the ratio, so p50 <= p95. */
  lemma MonotoneInRatio(values: seq<real>, ratio: real, larger: real)
    requires 0.0 <= ratio <= larger <= 1.0
    ensures PercentileOf(values, ratio) <= PercentileOf(values, larger)
  {
    if values != [] {
      var ordered := PercentileIs(values, ratio);
      var _ := PercentileIs(values, larger);
      Larger(|values|, ratio, larger);
      AtRankIsMonotone(ordered, Rank(|values|, ratio), Rank(|values|, larger));
    }
  }

  /** With `k + part` for the rank `(n - 1) * ratio`, the value lies at `part` of the way from the k-th
      to the next sample in ascending order. */
  lemma PercentileInterpolates(values: seq<real>, ratio: real, ordered: seq<real>, k: nat, part: real)
    requires values != [] && 0.0 <= ratio <= 1.0 && Ascending(ordered) && multiset(ordered) == multiset(values)
    requires (|values| - 1) as real * ratio == k as real + part && 0.0 <= part < 1.0
    ensures k < |ordered| && (part > 0.0 ==> k + 1 < |ordered|)
    ensures part == 0.0 ==> PercentileOf(values, ratio) == ordered[k]
    ensures part > 0.0 ==> PercentileOf(values, ratio) == (1.0 - part) * ordered[k] + part * ordered[k + 1]
  {
    var sorted := PercentileIs(values, ratio);
    AscendingIsUnique(ordered, sorted);
    SameLength(values, ordered);
    var rank := Rank(|values|, ratio);
    assert rank == k as real + part && rank.Floor == k;
    if part > 0.0 {
      assert Ceiling(rank) == k + 1;
      Weighted(ordered[k], ordered[k + 1], part);
    }
  }

  lemma Weighted(a: real, b: real, part: real)
    requires a <= b && 0.0 <= part <= 1.0
    ensures Interpolate(a, b, part) == (1.0 - part) * a + part * b
  {
  }

  /** An end of the ascending samples is the least or greatest of them. */
  lemma EndIs(values: seq<real>, ordered: seq<real>, x: real)
    requires Ascending(ordered) && multiset(ordered) == multiset(values) && x in values
    ensures |ordered| == |values|
    ensures (forall y | y in values :: x <= y) ==> ordered[0] == x
    ensures (forall y | y in values :: y <= x) ==> ordered[|ordered| - 1] == x
  {
    SameLength(values, ordered);
    assert x in multiset(values);
    var i :| 0 <= i < |ordered| && ordered[i] == x;
    assert ordered[0] in multiset(ordered) && ordered[|ordered| - 1] in multiset(ordered);
    assert ordered[0] in values && ordered[|ordered| - 1] in values;
  }

  /** p0 is the least sample. */
  lemma LeastIsP0(values: seq<real>, x: real)
    requires x in values && forall y | y in values :: x <= y
    ensures PercentileOf(values, 0.0) == x
  {
    var ordered := PercentileIs(values, 0.0);
    EndIs(values, ordered, x);
  }

  /** p100 is the greatest. */
  lemma GreatestIsP100(values: seq<real>, x: real)
    requires x in values && forall y | y in values :: y <= x
    ensures PercentileOf(values, 1.0) == x
  {
    var ordered := PercentileIs(values, 1.0);
    EndIs(values, ordered, x);
  }
}
