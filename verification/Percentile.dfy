/** Nearest-rank percentiles and the latency summary built from them, in exact arithmetic. */
module Percentile {

  datatype Error = EmptySample | QuantileOutOfRange

  datatype Result<T> = Ok(value: T) | Err(error: Error)

  function Insert(x: real, s: seq<real>): seq<real> {
    if s == [] || x <= s[0] then [x] + s else [s[0]] + Insert(x, s[1..])
  }

  function Sort(values: seq<real>): seq<real> {
    if values == [] then [] else Insert(values[0], Sort(values[1..]))
  }

  function Ceil(x: real): int {
    if x.Floor as real == x then x.Floor else x.Floor + 1
  }

  function Rank(quantile: real, n: nat): int {
    Ceil(quantile / 100.0 * n as real)
  }

  function AtRank(ordered: seq<real>, rank: int): real
    requires ordered != [] && rank <= |ordered|
  {
    ordered[if rank - 1 > 0 then rank - 1 else 0]
  }

  function PercentileOf(values: seq<real>, quantile: real): Result<real> {
    if values == [] then Err(EmptySample)
    else if !(0.0 <= quantile <= 100.0) then Err(QuantileOutOfRange)
    else
      SortIsSorted(values);
      RankInRange(quantile, |values|);
      Ok(AtRank(Sort(values), Rank(quantile, |values|)))
  }

  /** How many samples are at most `v`. */
  function CountAtMost(values: seq<real>, v: real): nat {
    if values == [] then 0 else (if values[0] <= v then 1 else 0) + CountAtMost(values[1..], v)
  }

  ghost predicate Ordered(s: seq<real>) {
    forall i, j :: 0 <= i < j < |s| ==> s[i] <= s[j]
  }

  lemma {:induction false} InsertAdds(x: real, s: seq<real>)
    ensures multiset(Insert(x, s)) == multiset{x} + multiset(s)
  {
    if s == [] {
    } else {
      InsertAdds(x, s[1..]);
      assert s == [s[0]] + s[1..];
    }
  }

  lemma OrderedCons(x: real, s: seq<real>)
    requires Ordered(s) && forall j :: 0 <= j < |s| ==> x <= s[j]
    ensures Ordered([x] + s)
  {
  }

  lemma {:induction false} InsertIsSorted(x: real, s: seq<real>)
    requires Ordered(s)
    ensures Ordered(Insert(x, s)) && multiset(Insert(x, s)) == multiset{x} + multiset(s)
  {
    InsertAdds(x, s);
    if s == [] || x <= s[0] {
      OrderedCons(x, s);
    } else {
      var r := Insert(x, s[1..]);
      InsertIsSorted(x, s[1..]);
      forall j | 0 <= j < |r| ensures s[0] <= r[j] {
        assert r[j] in multiset(r);
        assert r[j] == x || r[j] in s[1..];
      }
      OrderedCons(s[0], r);
    }
    hide Ordered;
  }

  lemma {:induction false} SortIsSorted(values: seq<real>)
    ensures Ordered(Sort(values)) && multiset(Sort(values)) == multiset(values) && |Sort(values)| == |values|
  {
    if values == [] {
    } else {
      SortIsSorted(values[1..]);
      InsertIsSorted(values[0], Sort(values[1..]));
      assert values == [values[0]] + values[1..];
    }
    assert |multiset(Sort(values))| == |multiset(values)|;
  }

  lemma RankInRange(quantile: real, n: nat)
    requires 0.0 <= quantile <= 100.0
    ensures Rank(quantile, n) <= n
  {
    assert quantile / 100.0 <= 1.0;
    assert quantile / 100.0 * n as real <= n as real;
  }

  /** The rank is the least count whose share reaches the quantile. */
  lemma RankIsLeast(quantile: real, n: nat, count: int)
    ensures Rank(quantile, n) <= count <==> quantile * n as real <= 100.0 * count as real
  {
    assert quantile / 100.0 * n as real == (quantile * n as real) / 100.0;
  }

  lemma {:induction false} CountWithout(s: seq<real>, i: nat, v: real)
    requires i < |s|
    ensures CountAtMost(s, v) == CountAtMost(s[..i] + s[i + 1..], v) + if s[i] <= v then 1 else 0
  {
    var t := s[..i] + s[i + 1..];
    if i == 0 {
      assert t == s[1..];
    } else {
      CountWithout(s[1..], i - 1, v);
      assert t[1..] == s[1..][..i - 1] + s[1..][i..];
    }
  }

  lemma SameRest(a: seq<real>, b: seq<real>, i: nat)
    requires multiset(a) == multiset(b) && a != [] && i < |b| && b[i] == a[0]
    ensures multiset(a[1..]) == multiset(b[..i] + b[i + 1..])
  {
    assert a == [a[0]] + a[1..];
    assert b == b[..i] + ([b[i]] + b[i + 1..]);
    assert multiset(a[1..]) == multiset(a) - multiset{a[0]};
    assert multiset(b[..i] + b[i + 1..]) == multiset(b) - multiset{a[0]};
  }

  lemma {:induction false} CountPermutes(a: seq<real>, b: seq<real>, v: real)
    requires multiset(a) == multiset(b)
    ensures CountAtMost(a, v) == CountAtMost(b, v)
  {
    if a == [] {
      assert |multiset(b)| == 0;
    } else {
      assert a[0] in multiset(b);
      var i :| 0 <= i < |b| && b[i] == a[0];
      hide CountAtMost;
      SameRest(a, b, i);
      CountPermutes(a[1..], b[..i] + b[i + 1..], v);
      CountWithout(b, i, v);
      CountFirst(a, v);
    }
  }

  lemma CountFirst(a: seq<real>, v: real)
    requires a != []
    ensures CountAtMost(a, v) == CountAtMost(a[1..], v) + if a[0] <= v then 1 else 0
  {
  }

  lemma {:induction false} CountBounds(s: seq<real>, k: nat, v: real)
    requires Ordered(s) && k <= |s|
    ensures k > 0 && s[k - 1] <= v ==> CountAtMost(s, v) >= k
    ensures k < |s| && s[k] > v ==> CountAtMost(s, v) <= k
    ensures CountAtMost(s, v) <= |s|
  {
    if s == [] {
    } else {
      assert Ordered(s[1..]);
      CountBounds(s[1..], if k > 0 then k - 1 else 0, v);
    }
  }

  /** At least `quantile` percent of the samples are at most `v`. */
  predicate Enough(values: seq<real>, quantile: real, v: real) {
    100.0 * CountAtMost(values, v) as real >= quantile * |values| as real
  }

  /** The value asked for: observed, with a large enough share at or below it, and the least such. */
  ghost predicate IsNearestRank(values: seq<real>, quantile: real, r: real) {
    && r in values && Enough(values, quantile, r)
    && forall v :: v in values && Enough(values, quantile, v) ==> r <= v
  }

  lemma EnoughIsRank(values: seq<real>, quantile: real, v: real)
    ensures Enough(values, quantile, v) <==> Rank(quantile, |values|) <= CountAtMost(values, v)
  {
    RankIsLeast(quantile, |values|, CountAtMost(values, v));
    hide CountAtMost, Rank;
  }

  lemma EnoughPermutes(a: seq<real>, b: seq<real>, quantile: real, v: real)
    requires multiset(a) == multiset(b)
    ensures Enough(a, quantile, v) <==> Enough(b, quantile, v)
  {
    assert |a| == |multiset(a)| == |b|;
    CountPermutes(a, b, v);
    hide CountAtMost;
  }

  /** Taken at its rank, a sorted sample gives the least value with enough at or below it. */
  lemma AtRankIsLeast(s: seq<real>, rank: int, v: real)
    requires Ordered(s) && s != [] && rank <= |s|
    ensures CountAtMost(s, AtRank(s, rank)) >= rank
    ensures v in s && CountAtMost(s, v) >= rank ==> AtRank(s, rank) <= v
  {
    var k := if rank - 1 > 0 then rank - 1 else 0;
    CountBounds(s, k + 1, s[k]);
    CountBounds(s, k, v);
    hide CountAtMost;
  }

  lemma PercentileIsNearestRank(values: seq<real>, quantile: real)
    ensures PercentileOf(values, quantile).Ok? <==> values != [] && 0.0 <= quantile <= 100.0
    ensures values == [] ==> PercentileOf(values, quantile) == Err(EmptySample)
    ensures values != [] && !(0.0 <= quantile <= 100.0) ==> PercentileOf(values, quantile) == Err(QuantileOutOfRange)
    ensures PercentileOf(values, quantile).Ok? ==> IsNearestRank(values, quantile, PercentileOf(values, quantile).value)
  {
    if values != [] && 0.0 <= quantile <= 100.0 {
      var s, rank := Sort(values), Rank(quantile, |values|);
      SortIsSorted(values);
      RankInRange(quantile, |values|);
      var r := AtRank(s, rank);
      assert r in multiset(s);
      hide CountAtMost, Rank, Sort, Ordered, Enough;
      AtRankIsLeast(s, rank, r);
      CountPermutes(s, values, r);
      EnoughIsRank(values, quantile, r);
      forall v | v in values && Enough(values, quantile, v) ensures r <= v {
        assert v in multiset(values);
        AtRankIsLeast(s, rank, v);
        CountPermutes(s, values, v);
        EnoughIsRank(values, quantile, v);
      }
    }
  }

  /** There is only one such value, so the definition determines the function. */
  lemma NearestRankIsUnique(values: seq<real>, quantile: real, r: real)
    requires values != [] && 0.0 <= quantile <= 100.0
    ensures PercentileOf(values, quantile) == Ok(r) <==> IsNearestRank(values, quantile, r)
  {
    PercentileIsNearestRank(values, quantile);
    hide PercentileOf, Enough;
  }

  lemma SameShares(a: seq<real>, b: seq<real>, quantile: real, r: real)
    requires multiset(a) == multiset(b) && IsNearestRank(a, quantile, r)
    ensures IsNearestRank(b, quantile, r)
  {
    assert r in multiset(a);
    EnoughPermutes(a, b, quantile, r);
    hide Enough;
    forall v | v in b && Enough(b, quantile, v) ensures r <= v {
      assert v in multiset(b);
      EnoughPermutes(a, b, quantile, v);
    }
  }

  /** The order in which samples were taken does not matter. */
  lemma PermutationInvariant(a: seq<real>, b: seq<real>, quantile: real)
    requires multiset(a) == multiset(b)
    ensures PercentileOf(a, quantile) == PercentileOf(b, quantile)
  {
    assert |a| == |multiset(a)| == |b|;
    if a != [] && 0.0 <= quantile <= 100.0 {
      PercentileIsNearestRank(a, quantile);
      SameShares(a, b, quantile, PercentileOf(a, quantile).value);
      NearestRankIsUnique(b, quantile, PercentileOf(a, quantile).value);
    }
    hide IsNearestRank, Sort, Rank;
  }

  lemma EnoughForLess(values: seq<real>, q: real, q': real, v: real)
    requires q <= q' && Enough(values, q', v)
    ensures Enough(values, q, v)
  {
    assert q * |values| as real <= q' * |values| as real;
  }

  /** A higher quantile is never a lower value. */
  lemma MonotoneInQuantile(values: seq<real>, q: real, q': real)
    requires values != [] && 0.0 <= q <= q' <= 100.0
    ensures PercentileOf(values, q).value <= PercentileOf(values, q').value
  {
    PercentileIsNearestRank(values, q);
    PercentileIsNearestRank(values, q');
    EnoughForLess(values, q, q', PercentileOf(values, q').value);
    hide PercentileOf, Enough;
  }

  function Least(values: seq<real>): (r: real)
    requires values != []
    ensures r in values && forall v :: v in values ==> r <= v
  {
    if |values| == 1 then values[0]
    else
      var rest := Least(values[1..]);
      assert values == [values[0]] + values[1..];
      if values[0] <= rest then values[0] else rest
  }

  function Greatest(values: seq<real>): (r: real)
    requires values != []
    ensures r in values && forall v :: v in values ==> v <= r
  {
    if |values| == 1 then values[0]
    else
      var rest := Greatest(values[1..]);
      assert values == [values[0]] + values[1..];
      if values[0] >= rest then values[0] else rest
  }

  function Sum(values: seq<real>): real {
    if values == [] then 0.0 else values[0] + Sum(values[1..])
  }

  function Scaled(values: seq<real>): (r: seq<real>)
    ensures |r| == |values| && forall i :: 0 <= i < |r| ==> r[i] == values[i] * 1000.0
  {
    seq(|values|, i requires 0 <= i < |values| => values[i] * 1000.0)
  }

  datatype LatencySummary = LatencySummary(
    count: nat, minMs: real, p50Ms: real, p95Ms: real, p99Ms: real, maxMs: real, meanMs: real)

  function FromSeconds(latencies: seq<real>): Result<LatencySummary> {
    if latencies == [] then Err(EmptySample)
    else
      var ms := Scaled(latencies);
      Ok(LatencySummary(|ms|, Least(ms), PercentileOf(ms, 50.0).value, PercentileOf(ms, 95.0).value,
                        PercentileOf(ms, 99.0).value, Greatest(ms), Share(Sum(ms), |ms|)))
  }

  function Times(x: real, n: nat): real {
    x * n as real
  }

  lemma TimesNext(x: real, n: nat)
    ensures Times(x, 0) == 0.0 && Times(x, n + 1) == Times(x, n) + x
  {
    assert (n + 1) as real == n as real + 1.0;
    assert x * (n as real + 1.0) == x * n as real + x;
  }

  lemma {:induction false} SumBounds(values: seq<real>, lo: real, hi: real)
    requires forall v :: v in values ==> lo <= v <= hi
    ensures Times(lo, |values|) <= Sum(values) <= Times(hi, |values|)
  {
    hide Times;
    if values == [] {
      TimesNext(lo, 0);
      TimesNext(hi, 0);
    } else {
      assert values[0] in values;
      assert forall v :: v in values[1..] ==> v in values;
      SumBounds(values[1..], lo, hi);
      TimesNext(lo, |values[1..]|);
      TimesNext(hi, |values[1..]|);
    }
  }

  lemma MeanBounds(values: seq<real>)
    requires values != []
    ensures Least(values) <= Share(Sum(values), |values|) <= Greatest(values)
  {
    hide Least, Greatest, Sum, Share, Times;
    SumBounds(values, Least(values), Greatest(values));
    Quotient(Least(values), Sum(values), |values|, Greatest(values));
  }

  lemma Quotient(lo: real, total: real, n: nat, hi: real)
    requires n > 0 && Times(lo, n) <= total <= Times(hi, n)
    ensures lo <= Share(total, n) <= hi
  {
    var mean, m := Share(total, n), n as real;
    assert mean * m == total;
    if mean < lo {
      Less(mean, lo, m);
    }
    if hi < mean {
      Less(hi, mean, m);
    }
  }

  lemma Less(a: real, b: real, n: real)
    requires a < b && n > 0.0
    ensures a * n < b * n
  {
  }

  lemma WithinRange(values: seq<real>, quantile: real)
    requires values != [] && 0.0 <= quantile <= 100.0
    ensures PercentileOf(values, quantile).Ok?
    ensures Least(values) <= PercentileOf(values, quantile).value <= Greatest(values)
  {
    PercentileIsNearestRank(values, quantile);
    hide PercentileOf, Enough;
  }

  /** Every summary is in order, and its mean lies between its ends. */
  lemma SummaryIsOrdered(latencies: seq<real>)
    ensures FromSeconds(latencies).Ok? <==> latencies != []
    ensures latencies != [] ==>
              var s := FromSeconds(latencies).value;
              && s.count == |latencies|
              && s.minMs <= s.p50Ms <= s.p95Ms <= s.p99Ms <= s.maxMs
              && s.minMs <= s.meanMs <= s.maxMs
  {
    if latencies != [] {
      var ms := Scaled(latencies);
      WithinRange(ms, 50.0);
      WithinRange(ms, 99.0);
      MonotoneInQuantile(ms, 50.0, 95.0);
      MonotoneInQuantile(ms, 95.0, 99.0);
      MeanBounds(ms);
    }
    hide PercentileOf, Least, Greatest, Sum, Scaled;
  }

  /** The ends of the summary are the least and the greatest latency, in milliseconds. */
  lemma SummaryEndsAreExtremes(latencies: seq<real>)
    requires latencies != []
    ensures var s, n := FromSeconds(latencies).value, |latencies|;
            && (exists i :: 0 <= i < n && s.minMs == 1000.0 * latencies[i])
            && (exists i :: 0 <= i < n && s.maxMs == 1000.0 * latencies[i])
            && (forall i :: 0 <= i < n ==> s.minMs <= 1000.0 * latencies[i] <= s.maxMs)
  {
    Figures(latencies);
    hide *;
    SummaryEnds(latencies);
  }

  /** Its percentiles are those of the latencies, in milliseconds. */
  lemma SummaryPercentiles(latencies: seq<real>)
    requires latencies != []
    ensures var s := FromSeconds(latencies).value;
            && s.p50Ms == PercentileOf(latencies, 50.0).value * 1000.0
            && s.p95Ms == PercentileOf(latencies, 95.0).value * 1000.0
            && s.p99Ms == PercentileOf(latencies, 99.0).value * 1000.0
  {
    Figures(latencies);
    hide *;
    PercentileScales(latencies, 50.0);
    PercentileScales(latencies, 95.0);
    PercentileScales(latencies, 99.0);
  }

  /** Its mean is their sum, in milliseconds, shared among them. */
  lemma SummaryMean(latencies: seq<real>)
    requires latencies != []
    ensures FromSeconds(latencies).value.meanMs == Share(1000.0 * Sum(latencies), |latencies|)
  {
    hide *;
    Figures(latencies);
    ScaledSum(latencies);
    var ms := Scaled(latencies);
    assert FromSeconds(latencies).value.meanMs == Share(Sum(ms), |latencies|);
    assert Sum(ms) == 1000.0 * Sum(latencies);
  }

  function Share(total: real, n: nat): real
    requires n > 0
  {
    total / n as real
  }

  lemma Figures(latencies: seq<real>)
    requires latencies != []
    ensures FromSeconds(latencies).Ok?
    ensures var s, ms := FromSeconds(latencies).value, Scaled(latencies);
            && s.minMs == Least(ms) && s.maxMs == Greatest(ms)
            && s.p50Ms == PercentileOf(ms, 50.0).value && s.p95Ms == PercentileOf(ms, 95.0).value
            && s.p99Ms == PercentileOf(ms, 99.0).value && s.meanMs == Share(Sum(ms), |latencies|)
  {
    hide PercentileOf, Sum, Least, Greatest;
  }

  lemma SummaryEnds(latencies: seq<real>)
    requires latencies != []
    ensures var lo, hi, n := Least(Scaled(latencies)), Greatest(Scaled(latencies)), |latencies|;
            && (exists i :: 0 <= i < n && lo == 1000.0 * latencies[i])
            && (exists i :: 0 <= i < n && hi == 1000.0 * latencies[i])
            && forall i :: 0 <= i < n ==> lo <= 1000.0 * latencies[i] <= hi
  {
    var ms := Scaled(latencies);
    var i :| 0 <= i < |ms| && ms[i] == Least(ms);
    var j :| 0 <= j < |ms| && ms[j] == Greatest(ms);
    assert Least(ms) == 1000.0 * latencies[i] && Greatest(ms) == 1000.0 * latencies[j];
    hide Least, Greatest, Scaled;
    forall k | 0 <= k < |latencies| ensures Least(ms) <= 1000.0 * latencies[k] <= Greatest(ms) {
      assert ms[k] in ms && ms[k] == 1000.0 * latencies[k];
    }
  }

  lemma {:induction false} ScaledSum(values: seq<real>)
    ensures Sum(Scaled(values)) == 1000.0 * Sum(values)
  {
    if values == [] {
    } else {
      assert Scaled(values)[1..] == Scaled(values[1..]);
      ScaledSum(values[1..]);
    }
  }

  lemma {:induction false} ScaledCount(values: seq<real>, v: real)
    ensures CountAtMost(Scaled(values), v * 1000.0) == CountAtMost(values, v)
  {
    if values == [] {
    } else {
      assert Scaled(values)[1..] == Scaled(values[1..]);
      ScaledCount(values[1..], v);
    }
  }

  /** Milliseconds are seconds: changing the unit first or last gives the same percentile. */
  lemma PercentileScales(values: seq<real>, quantile: real)
    requires values != [] && 0.0 <= quantile <= 100.0
    ensures PercentileOf(Scaled(values), quantile) == Ok(PercentileOf(values, quantile).value * 1000.0)
  {
    PercentileIsNearestRank(values, quantile);
    var ms, r := Scaled(values), PercentileOf(values, quantile).value;
    ScaledIsNearestRank(values, quantile, r);
    NearestRankIsUnique(ms, quantile, r * 1000.0);
    hide IsNearestRank, PercentileOf;
  }

  lemma EnoughScales(values: seq<real>, quantile: real, v: real)
    ensures Enough(Scaled(values), quantile, v * 1000.0) <==> Enough(values, quantile, v)
  {
    ScaledCount(values, v);
    hide CountAtMost;
  }

  lemma ScaledIsNearestRank(values: seq<real>, quantile: real, r: real)
    requires IsNearestRank(values, quantile, r)
    ensures IsNearestRank(Scaled(values), quantile, r * 1000.0)
  {
    var ms := Scaled(values);
    var i :| 0 <= i < |values| && values[i] == r;
    assert ms[i] == r * 1000.0;
    EnoughScales(values, quantile, r);
    hide Enough;
    forall w | w in ms && Enough(ms, quantile, w) ensures r * 1000.0 <= w {
      var j :| 0 <= j < |ms| && ms[j] == w;
      EnoughScales(values, quantile, values[j]);
      assert values[j] in values;
    }
  }
}
