/** The histograms of router/metrics.py. */
module Metrics {

  /** How many of the observed values are at most `bound`. */
  function AtMost(values: seq<real>, bound: real): nat {
    if values == [] then 0
    else AtMost(values[..|values| - 1], bound) + (if values[|values| - 1] <= bound then 1 else 0)
  }

  function Sum(values: seq<real>): real {
    if values == [] then 0.0 else Sum(values[..|values| - 1]) + values[|values| - 1]
  }

  /** Nothing sums to 0, and one more value adds itself. */
  lemma SumAddsUp(values: seq<real>, value: real)
    ensures Sum([]) == 0.0 && Sum(values + [value]) == Sum(values) + value
  {
    assert (values + [value])[..|values|] == values;
  }

  ghost predicate Increasing(bounds: seq<real>) {
    forall i, j :: 0 <= i < j < |bounds| ==> bounds[i] < bounds[j]
  }

  /** The bucket a value is tallied in: the first whose bound it does not exceed, or |bounds| for +Inf. */
  function Bucket(bounds: seq<real>, value: real): (i: nat)
    ensures i <= |bounds|
    ensures i < |bounds| ==> value <= bounds[i]
    ensures forall j :: 0 <= j < i ==> value > bounds[j]
  {
    if bounds == [] || value <= bounds[0] then 0 else 1 + Bucket(bounds[1..], value)
  }

  /** How many of the observed values fall in bucket `i`. */
  function InBucket(bounds: seq<real>, values: seq<real>, i: nat): nat {
    if values == [] then 0
    else InBucket(bounds, values[..|values| - 1], i)
         + (if Bucket(bounds, values[|values| - 1]) == i then 1 else 0)
  }

  function Cumulative(bounds: seq<real>, values: seq<real>, n: nat): nat {
    if n == 0 then 0 else Cumulative(bounds, values, n - 1) + InBucket(bounds, values, n - 1)
  }

  /** Running totals of the per-bucket tallies count the observations up to each bound. */
  lemma {:induction false} CumulativeCounts(bounds: seq<real>, values: seq<real>, i: nat)
    requires Increasing(bounds) && i < |bounds|
    ensures Cumulative(bounds, values, i + 1) == AtMost(values, bounds[i])
    decreases |values|
  {
    if values == [] {
      CumulativeEmpty(bounds, i + 1);
    } else {
      var init, last := values[..|values| - 1], values[|values| - 1];
      CumulativeCounts(bounds, init, i);
      CumulativeStep(bounds, values, i + 1);
      assert last <= bounds[i] <==> Bucket(bounds, last) < i + 1;
    }
  }

  lemma {:induction false} CumulativeEmpty(bounds: seq<real>, n: nat)
    ensures Cumulative(bounds, [], n) == 0
  {
    if n > 0 { CumulativeEmpty(bounds, n - 1); }
  }

  lemma {:induction false} CumulativeStep(bounds: seq<real>, values: seq<real>, n: nat)
    requires values != []
    ensures Cumulative(bounds, values, n) == Cumulative(bounds, values[..|values| - 1], n)
            + (if Bucket(bounds, values[|values| - 1]) < n then 1 else 0)
  {
    if n > 0 { CumulativeStep(bounds, values, n - 1); }
  }

  class Histogram {
    const bounds: seq<real>
    var counts: seq<nat>
    var sum: real
    var count: nat
    ghost var observed: seq<real>

    ghost predicate Valid()
      reads this
    {
      && Increasing(bounds)
      && |counts| == |bounds| && count == |observed| && sum == Sum(observed)
      && forall i :: 0 <= i < |bounds| ==> counts[i] == InBucket(bounds, observed, i)
    }

    constructor (bounds: seq<real>)
      requires Increasing(bounds)
      ensures Valid() && observed == [] && this.bounds == bounds
    {
      this.bounds := bounds;
      counts := seq(|bounds|, _ => 0);
      sum, count, observed := 0.0, 0, [];
    }

    method Observe(value: real)
      requires Valid()
      modifies this
      ensures Valid() && observed == old(observed) + [value]
    {
      count, sum := count + 1, sum + value;
      ghost var before := observed;
      observed := observed + [value];
      assert observed[..|observed| - 1] == before;
      var i := 0;
      while i < |bounds|
        invariant 0 <= i <= Bucket(bounds, value)
        invariant counts == old(counts)
      {
        if value <= bounds[i] {
          counts := counts[i := counts[i] + 1];
          return;
        }
        i := i + 1;
      }
    }

    /** The rendered buckets: each line shows the number of observations up to its bound, the last all of them. */
    method Render() returns (buckets: seq<nat>, inf: nat, total: real)
      requires Valid()
      ensures |buckets| == |bounds| && inf == |observed| && total == Sum(observed)
      ensures forall i :: 0 <= i < |bounds| ==> buckets[i] == AtMost(observed, bounds[i])
    {
      buckets, inf, total := [], count, sum;
      var cumulative := 0;
      for i := 0 to |bounds|
        invariant |buckets| == i && cumulative == Cumulative(bounds, observed, i)
        invariant forall j :: 0 <= j < i ==> buckets[j] == AtMost(observed, bounds[j])
      {
        cumulative := cumulative + counts[i];
        CumulativeCounts(bounds, observed, i);
        buckets := buckets + [cumulative];
      }
    }
  }
}
