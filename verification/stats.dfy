/**
 * `statistics.mean` and `max` over the values the pipeline aggregates:
 * a list of scores (the memory history) and the values of a dict (the
 * normalized readings). Sums are exact over reals.
 */
module Stats {

  /** The sum of a list, built from the back so that appending is one step. */
  function SeqSum(s: seq<real>): real {
    if s == [] then 0.0 else SeqSum(s[..|s| - 1]) + s[|s| - 1]
  }

  function SeqMean(s: seq<real>): real
    requires |s| > 0
  {
    SeqSum(s) / |s| as real
  }

  lemma SeqSumSnoc(s: seq<real>, x: real)
    ensures SeqSum(s + [x]) == SeqSum(s) + x
  {
    assert (s + [x])[..|s|] == s;
  }

  lemma MapRemoveSize<K, V>(m: map<K, V>, k: K)
    requires k in m
    ensures |m - {k}| == |m| - 1
  {
    assert (m - {k}).Keys == m.Keys - {k};
  }

  /** The sum of a dict's values, taken in an arbitrary key order. */
  ghost function MapSum<K>(m: map<K, real>): real
    decreases |m|
  {
    if m == map[] then 0.0
    else
      assert exists k :: k in m by { var k :| k in m.Keys; }
      var k :| k in m;
      MapRemoveSize(m, k);
      m[k] + MapSum(m - {k})
  }

  /** The key order does not matter: any key may be taken first. */
  lemma {:induction false} MapSumRemove<K>(m: map<K, real>, k: K)
    requires k in m
    ensures MapSum(m) == m[k] + MapSum(m - {k})
    decreases |m|
  {
    var j :| j in m && MapSum(m) == m[j] + MapSum(m - {j});
    if j != k {
      MapRemoveSize(m, j);
      MapRemoveSize(m, k);
      MapSumRemove(m - {j}, k);
      MapSumRemove(m - {k}, j);
      assert (m - {j}) - {k} == (m - {k}) - {j};
    }
  }

  /** The largest value of a non-empty dict. */
  ghost function MapMax<K>(m: map<K, real>): (r: real)
    requires m != map[]
    ensures exists k :: k in m && m[k] == r
    ensures forall k :: k in m ==> m[k] <= r
    decreases |m|
  {
    assert exists k :: k in m by { var k :| k in m.Keys; }
    var k :| k in m;
    MapRemoveSize(m, k);
    if m - {k} == map[] then
      assert m.Keys == {k} by {
        assert (m - {k}).Keys == m.Keys - {k};
      }
      m[k]
    else
      var rest := MapMax(m - {k});
      assert forall j :: j in m && j != k ==> j in m - {k};
      if m[k] >= rest then m[k] else rest
  }


  /** `n` copies of `x` added up. */
  function Repeat(n: nat, x: real): real {
    if n == 0 then 0.0 else Repeat(n - 1, x) + x
  }

  lemma {:induction false} RepeatIsProduct(n: nat, x: real)
    ensures Repeat(n, x) == n as real * x
  {
    if n > 0 {
      RepeatIsProduct(n - 1, x);
      assert n as real * x == (n - 1) as real * x + x;
    }
  }

  /** The sum of n values is at most n copies of a bound on each. */
  lemma {:induction false} SumAtMostRepeatedBound<K>(m: map<K, real>, bound: real)
    requires forall k :: k in m ==> m[k] <= bound
    ensures MapSum(m) <= Repeat(|m|, bound)
    decreases |m|
  {
    if m != map[] {
      assert exists k :: k in m by { var k :| k in m.Keys; }
      var k :| k in m;
      MapSumRemove(m, k);
      MapRemoveSize(m, k);
      SumAtMostRepeatedBound(m - {k}, bound);
    }
  }

  lemma DivideBounded(sum: real, n: real, bound: real)
    requires n > 0.0 && sum <= n * bound
    ensures sum / n <= bound
  {
    assert sum / n - bound == (sum - n * bound) / n;
  }

  lemma DivideBoundedBelow(sum: real, n: real, bound: real)
    requires n > 0.0 && n * bound <= sum
    ensures bound <= sum / n
  {
    assert sum / n - bound == (sum - n * bound) / n;
  }

  /** The sum of a list lies between as many copies of a lower and of an
      upper bound on its entries. */
  lemma {:induction false} SeqSumWithin(s: seq<real>, lo: real, hi: real)
    requires forall i :: 0 <= i < |s| ==> lo <= s[i] <= hi
    ensures Repeat(|s|, lo) <= SeqSum(s) <= Repeat(|s|, hi)
  {
    if s != [] {
      var init := s[..|s| - 1];
      assert forall i :: 0 <= i < |init| ==> init[i] == s[i];
      SeqSumWithin(init, lo, hi);
    }
  }

  /** The mean of a non-empty list lies within any bounds on its entries. */
  lemma SeqMeanWithin(s: seq<real>, lo: real, hi: real)
    requires |s| > 0
    requires forall i :: 0 <= i < |s| ==> lo <= s[i] <= hi
    ensures lo <= SeqMean(s) <= hi
  {
    SeqSumWithin(s, lo, hi);
    RepeatIsProduct(|s|, lo);
    RepeatIsProduct(|s|, hi);
    DivideBounded(SeqSum(s), |s| as real, hi);
    DivideBoundedBelow(SeqSum(s), |s| as real, lo);
  }

  /** The mean of a non-empty dict's values is at most any bound on them. */
  lemma MeanAtMostBound<K>(m: map<K, real>, bound: real)
    requires m != map[]
    requires forall k :: k in m ==> m[k] <= bound
    ensures MapSum(m) / |m| as real <= bound
  {
    SumAtMostRepeatedBound(m, bound);
    RepeatIsProduct(|m|, bound);
    DivideBounded(MapSum(m), |m| as real, bound);
  }

  /** The mean of a non-empty dict's values never exceeds their maximum. */
  lemma MeanAtMostMax<K>(m: map<K, real>)
    requires m != map[]
    ensures MapSum(m) / |m| as real <= MapMax(m)
  {
    MeanAtMostBound(m, MapMax(m));
  }
}
